/** `CommunityMessageProcessor`: the selection skeleton of the clustering
    pipeline. The numeric steps are parameters: the engagement score's
    `Numerics`, the TF-IDF row sums (`tfidf`), the embedding service
    (`embed`) and HDBSCAN's labelling (`clusterer`). */
module Process {
  import opened Wrappers
  import opened Text
  import opened Sorting
  import opened TelegramSchemas

  const InitialEngagementThreshold: real := 0.75
  const MinMessagePercentage: real := 0.1
  const MaxMessages: nat := 1000
  const EmbedBatchSize: nat := 256

  type Vector = seq<real>

  /** One row of the combined matrix: the text embedding and the message's
      UNIX time (the column StandardScaler then normalises). */
  datatype Row = Row(embedding: Vector, time: int)

  /** `analyze_messages`' result: (message, importance) pairs and the matrix. */
  datatype Analysis = Analysis(pairs: seq<(ChatMessage, real)>, matrix: seq<Row>)

  function EngagementKey(num: Numerics): ChatMessage -> real {
    m => EngagementScore(m, num)
  }

  // ---------------------------------------------------------------------
  // 1. Engagement filter with its fallback

  /** The comprehension: messages scoring strictly above 0.75, in order. */
  function Passing(msgs: seq<ChatMessage>, num: Numerics): seq<ChatMessage> {
    if msgs == [] then []
    else (if EngagementScore(msgs[0], num) > InitialEngagementThreshold then [msgs[0]] else [])
         + Passing(msgs[1..], num)
  }

  /** `len(important) < len(messages) * 0.1`, in exact arithmetic. */
  predicate NeedsFallback(passing: nat, n: nat) {
    (passing as real) < (n as real) * MinMessagePercentage
  }

  /** `max(int(len(messages) * 0.1), 1000)`. */
  function FallbackCount(n: nat): (k: nat)
    ensures k == if n / 10 > MaxMessages then n / 10 else MaxMessages
  {
    var tenth := ((n as real) * MinMessagePercentage).Floor;
    assert tenth == n / 10;
    if tenth > MaxMessages then tenth else MaxMessages
  }

  /** The selection step of `analyze_messages`. */
  function SelectImportant(msgs: seq<ChatMessage>, num: Numerics): seq<ChatMessage> {
    var passing := Passing(msgs, num);
    if NeedsFallback(|passing|, |msgs|) then
      Take(SortDesc(msgs, EngagementKey(num)), FallbackCount(|msgs|))
    else passing
  }

  /** The comprehension keeps every copy of a message scoring above 0.75
      and no copy of any other. */
  lemma {:induction false} PassingCounts(msgs: seq<ChatMessage>, num: Numerics)
    ensures forall m :: multiset(Passing(msgs, num))[m] == (if EngagementScore(m, num) > 0.75 then multiset(msgs)[m] else 0)
  {
    if msgs != [] {
      PassingCounts(msgs[1..], num);
      assert msgs == [msgs[0]] + msgs[1..];
    }
  }

  lemma PassingMembers(msgs: seq<ChatMessage>, num: Numerics)
    ensures forall m :: m in Passing(msgs, num) <==> m in msgs && EngagementScore(m, num) > 0.75
    ensures |Passing(msgs, num)| <= |msgs|
  {
    PassingCounts(msgs, num);
    var p := Passing(msgs, num);
    assert multiset(p) <= multiset(msgs);
    assert |multiset(p)| <= |multiset(msgs)| by {
      SubMultisetSize(multiset(p), multiset(msgs));
    }
  }

  lemma {:induction false} SubMultisetSize<T>(a: multiset<T>, b: multiset<T>)
    requires a <= b
    ensures |a| <= |b|
    decreases |b|
  {
    if a != multiset{} {
      var x :| x in a;
      SubMultisetSize(a - multiset{x}, b - multiset{x});
    }
  }

  /** When at least a tenth of the messages pass, exactly the messages
      scoring above 0.75 are kept, with their multiplicities, in order. */
  lemma SelectionWithoutFallback(msgs: seq<ChatMessage>, num: Numerics)
    requires !NeedsFallback(|Passing(msgs, num)|, |msgs|)
    ensures SelectImportant(msgs, num) == Passing(msgs, num)
    ensures forall m :: m in SelectImportant(msgs, num) <==> m in msgs && EngagementScore(m, num) > 0.75
  {
    PassingMembers(msgs, num);
  }

  /** Otherwise the selection is the head of the stable descending sort, of
      length max(n/10, 1000) (or all n messages when there are fewer). */
  lemma SelectionWithFallback(msgs: seq<ChatMessage>, num: Numerics)
    requires NeedsFallback(|Passing(msgs, num)|, |msgs|)
    ensures var r := SelectImportant(msgs, num);
      && |r| == (if |msgs| < FallbackCount(|msgs|) then |msgs| else FallbackCount(|msgs|))
      && SortedDesc(r, EngagementKey(num))
      && r == SortDesc(msgs, EngagementKey(num))[..|r|]
  {
    var s := SortDesc(msgs, EngagementKey(num));
    SortDescSorted(msgs, EngagementKey(num));
    var r := SelectImportant(msgs, num);
    assert r == s[..|r|];
  }

  /** The fallback takes the larger of the two counts: up to 1000 messages
      the whole batch is kept, best first, and up to 10000 it is 1000 long. */
  lemma FallbackKeepsSmallBatches(msgs: seq<ChatMessage>, num: Numerics)
    requires NeedsFallback(|Passing(msgs, num)|, |msgs|)
    ensures |msgs| <= 1000 ==> multiset(SelectImportant(msgs, num)) == multiset(msgs)
    ensures 1000 <= |msgs| <= 10000 ==> |SelectImportant(msgs, num)| == 1000
    ensures |msgs| >= 10000 ==> |SelectImportant(msgs, num)| == |msgs| / 10
  {
    if |msgs| <= 1000 {
      assert SelectImportant(msgs, num) == SortDesc(msgs, EngagementKey(num));
    }
  }

  /** The selection is empty exactly when there are no messages. */
  lemma {:induction false} SelectionEmptyIff(msgs: seq<ChatMessage>, num: Numerics)
    ensures SelectImportant(msgs, num) == [] <==> msgs == []
  {
    var passing := Passing(msgs, num);
    if msgs != [] && !NeedsFallback(|passing|, |msgs|) {
      assert (|passing| as real) >= (|msgs| as real) * 0.1 > 0.0;
    }
  }

  // ---------------------------------------------------------------------
  // 2. Embedding batches

  /** The text sent for a message: body, then the preview title and the
      preview description each on a new line when non-empty. */
  function EmbeddingText(m: ChatMessage): (s: string)
    ensures StartsWith(s, m.text)
    ensures |s| == |m.text| + Extra(m.linkPreviewTitle) + Extra(m.linkPreviewDescription)
    ensures Extra(m.linkPreviewTitle) > 0 ==> s[|m.text|] == '\n'
    ensures Truthy(m.linkPreviewTitle) ==>
              s[|m.text| + 1..|m.text| + 1 + |m.linkPreviewTitle.value|] == m.linkPreviewTitle.value
    ensures Truthy(m.linkPreviewDescription) ==>
              s[|s| - |m.linkPreviewDescription.value| - 1] == '\n'
              && s[|s| - |m.linkPreviewDescription.value|..] == m.linkPreviewDescription.value
  {
    var withTitle := if Truthy(m.linkPreviewTitle) then m.text + "\n" + m.linkPreviewTitle.value else m.text;
    if Truthy(m.linkPreviewDescription) then withTitle + "\n" + m.linkPreviewDescription.value else withTitle
  }

  predicate Truthy(o: Option<string>) { o.Some? && o.value != "" }

  /** Characters an optional part adds: its length plus the newline. */
  function Extra(o: Option<string>): nat {
    if Truthy(o) then |o.value| + 1 else 0
  }

  function Texts(msgs: seq<ChatMessage>): (t: seq<string>)
    ensures |t| == |msgs|
    ensures forall i :: 0 <= i < |msgs| ==> t[i] == EmbeddingText(msgs[i])
  {
    seq(|msgs|, i requires 0 <= i < |msgs| => EmbeddingText(msgs[i]))
  }

  function Times(msgs: seq<ChatMessage>): (t: seq<int>)
    ensures |t| == |msgs|
    ensures forall i :: 0 <= i < |msgs| ==> t[i] == msgs[i].timestamp
  {
    seq(|msgs|, i requires 0 <= i < |msgs| => msgs[i].timestamp)
  }

  /** `s[i:i+k]` for i = 0, k, 2k, ... */
  function Batches<T>(s: seq<T>, k: nat): seq<seq<T>>
    requires k > 0
    decreases |s|
  {
    if s == [] then []
    else if |s| <= k then [s]
    else [s[..k]] + Batches(s[k..], k)
  }

  function Flatten<T>(ss: seq<seq<T>>): seq<T> {
    if ss == [] then [] else ss[0] + Flatten(ss[1..])
  }

  /** The batches concatenate back to the input. */
  lemma {:induction false} BatchesFlatten<T>(s: seq<T>, k: nat)
    requires k > 0
    ensures Flatten(Batches(s, k)) == s
    decreases |s|
  {
    if |s| > k {
      BatchesFlatten(s[k..], k);
      assert s[..k] + s[k..] == s;
    } else if s != [] {
      assert Flatten(Batches(s, k)) == s + Flatten([]);
    }
  }

  /** Batches are non-empty and at most k long; all but the last are
      exactly k long. */
  lemma {:induction false} BatchesSizes<T>(s: seq<T>, k: nat)
    requires k > 0
    ensures forall i :: 0 <= i < |Batches(s, k)| ==> 0 < |Batches(s, k)[i]| <= k
    ensures forall i :: 0 <= i < |Batches(s, k)| - 1 ==> |Batches(s, k)[i]| == k
    decreases |s|
  {
    if |s| > k {
      BatchesSizes(s[k..], k);
      var b := Batches(s, k);
      assert forall i :: 1 <= i < |b| ==> b[i] == Batches(s[k..], k)[i - 1];
    }
  }

  /** The calls made to the embedding service and what it answered. */
  datatype EmbedRun = EmbedRun(calls: seq<seq<string>>, vectors: Result<seq<Vector>>)

  function Prepend(v: seq<Vector>, r: Result<seq<Vector>>): Result<seq<Vector>> {
    if r.Ok? then Ok(v + r.value) else r
  }

  lemma PrependEmpty(r: Result<seq<Vector>>)
    ensures Prepend([], r) == r
  {
    if r.Ok? {
      assert [] + r.value == r.value;
    }
  }

  lemma PrependAssoc(v: seq<Vector>, w: seq<Vector>, r: Result<seq<Vector>>)
    ensures Prepend(v, Prepend(w, r)) == Prepend(v + w, r)
  {
    if r.Ok? {
      assert v + (w + r.value) == (v + w) + r.value;
    }
  }

  /** One `embed_content` call per 256-message batch, in order; the first
      exception ends the run (there is no retry). */
  function EmbedBatches(msgs: seq<ChatMessage>, embed: seq<string> -> Result<seq<Vector>>): EmbedRun
    decreases |msgs|
  {
    if msgs == [] then EmbedRun([], Ok([]))
    else
      var k := if |msgs| < EmbedBatchSize then |msgs| else EmbedBatchSize;
      var texts := Texts(msgs[..k]);
      match embed(texts)
      case Err(e) => EmbedRun([texts], Err(e))
      case Ok(v) =>
        var rest := EmbedBatches(msgs[k..], embed);
        EmbedRun([texts] + rest.calls, Prepend(v, rest.vectors))
  }

  /** The texts of each 256-message batch, in order. */
  function BatchTexts(msgs: seq<ChatMessage>): seq<seq<string>>
    decreases |msgs|
  {
    if msgs == [] then []
    else
      var k := if |msgs| < EmbedBatchSize then |msgs| else EmbedBatchSize;
      [Texts(msgs[..k])] + BatchTexts(msgs[k..])
  }

  lemma {:induction false} BatchTextsAreBatches(msgs: seq<ChatMessage>)
    ensures |BatchTexts(msgs)| == |Batches(msgs, EmbedBatchSize)|
    ensures forall i :: 0 <= i < |BatchTexts(msgs)| ==> BatchTexts(msgs)[i] == Texts(Batches(msgs, EmbedBatchSize)[i])
    decreases |msgs|
  {
    if msgs != [] {
      var k := if |msgs| < EmbedBatchSize then |msgs| else EmbedBatchSize;
      BatchTextsAreBatches(msgs[k..]);
      if |msgs| <= EmbedBatchSize {
        assert msgs[..k] == msgs && msgs[k..] == [];
      }
    }
  }

  /** The calls are the batches' texts, in order, each sent once: a failed
      call is the last one made and every earlier call succeeded. */
  lemma {:induction false} EmbedCallsFollowBatches(msgs: seq<ChatMessage>, embed: seq<string> -> Result<seq<Vector>>)
    ensures var run := EmbedBatches(msgs, embed);
      && run.calls <= BatchTexts(msgs)
      && (run.vectors.Ok? ==> run.calls == BatchTexts(msgs))
      && (run.vectors.Err? ==> |run.calls| > 0 && embed(run.calls[|run.calls| - 1]).Err?)
      && (forall j :: 0 <= j < |run.calls| - 1 ==> embed(run.calls[j]).Ok?)
    decreases |msgs|
  {
    if msgs != [] {
      var k := if |msgs| < EmbedBatchSize then |msgs| else EmbedBatchSize;
      EmbedCallsFollowBatches(msgs[k..], embed);
      var run := EmbedBatches(msgs, embed);
      var texts := Texts(msgs[..k]);
      if embed(texts).Ok? {
        var rest := EmbedBatches(msgs[k..], embed);
        assert run.calls == [texts] + rest.calls;
        forall j | 0 <= j < |run.calls| - 1 ensures embed(run.calls[j]).Ok? {
          if j > 0 {
            assert run.calls[j] == rest.calls[j - 1];
          }
        }
      }
    }
  }

  /** On success there is one vector per message, in message order. */
  lemma {:induction false} EmbedVectorsPerMessage(msgs: seq<ChatMessage>, embed: seq<string> -> Result<seq<Vector>>)
    requires forall ts :: embed(ts).Ok? ==> |embed(ts).value| == |ts|
    ensures var run := EmbedBatches(msgs, embed);
      run.vectors.Ok? ==> |run.vectors.value| == |msgs|
    decreases |msgs|
  {
    if msgs != [] {
      var k := if |msgs| < EmbedBatchSize then |msgs| else EmbedBatchSize;
      EmbedVectorsPerMessage(msgs[k..], embed);
    }
  }

  /** `np.hstack`: it needs as many vectors as time values and a rectangular
      block of vectors; the scaler needs at least one row. */
  function Combine(vectors: seq<Vector>, times: seq<int>): (r: Result<seq<Row>>)
    ensures r.Ok? ==> |r.value| == |times| == |vectors| > 0
    ensures r.Ok? ==> forall i :: 0 <= i < |times| ==> r.value[i] == Row(vectors[i], times[i])
  {
    if times == [] then Err(ValueError("Found array with 0 sample(s)"))
    else if |vectors| != |times| then Err(ValueError("all the input array dimensions except for the concatenation axis must match exactly"))
    else if exists i :: 0 <= i < |vectors| && |vectors[i]| != |vectors[0]| then Err(ValueError("inhomogeneous shape"))
    else Ok(seq(|times|, i requires 0 <= i < |times| => Row(vectors[i], times[i])))
  }

  function EmbeddingsOf(msgs: seq<ChatMessage>, embed: seq<string> -> Result<seq<Vector>>): Result<seq<Row>> {
    var run := EmbedBatches(msgs, embed);
    if run.vectors.Err? then Err(run.vectors.error) else Combine(run.vectors.value, Times(msgs))
  }

  /** One batch of `EmbedBatches`, taken from position `i`. */
  lemma EmbedBatchesStep(msgs: seq<ChatMessage>, i: nat, k: nat, embed: seq<string> -> Result<seq<Vector>>)
    requires i < |msgs| && k == (if |msgs| - i < EmbedBatchSize then |msgs| - i else EmbedBatchSize)
    ensures var texts := Texts(msgs[i..i + k]);
            EmbedBatches(msgs[i..], embed) ==
              match embed(texts)
              case Err(e) => EmbedRun([texts], Err(e))
              case Ok(v) =>
                var rest := EmbedBatches(msgs[i + k..], embed);
                EmbedRun([texts] + rest.calls, Prepend(v, rest.vectors))
  {
    assert msgs[i..][..k] == msgs[i..i + k];
    assert msgs[i..][k..] == msgs[i + k..];
  }

  /** The inner loop of `get_model_embeddings`: one text per message. */
  method EmbeddingTexts(batch: seq<ChatMessage>) returns (texts: seq<string>)
    ensures texts == Texts(batch)
  {
    texts := [];
    var j := 0;
    while j < |batch|
      invariant 0 <= j <= |batch|
      invariant |texts| == j
      invariant forall m :: 0 <= m < j ==> texts[m] == EmbeddingText(batch[m])
    {
      texts := texts + [EmbeddingText(batch[j])];
      j := j + 1;
    }
  }

  /** What the batches before position `i` leave to the batches after it. */
  predicate EmbedProgress(msgs: seq<ChatMessage>, embed: seq<string> -> Result<seq<Vector>>, i: nat,
                          calls: seq<seq<string>>, vectors: seq<Vector>)
    requires i <= |msgs|
  {
    EmbedBatches(msgs, embed) ==
      EmbedRun(calls + EmbedBatches(msgs[i..], embed).calls,
               Prepend(vectors, EmbedBatches(msgs[i..], embed).vectors))
  }

  /** A batch that embeds moves the progress on by one batch. */
  lemma EmbedProgressStep(msgs: seq<ChatMessage>, embed: seq<string> -> Result<seq<Vector>>, i: nat, k: nat,
                          calls: seq<seq<string>>, vectors: seq<Vector>, v: seq<Vector>)
    requires i < |msgs| && k == (if |msgs| - i < EmbedBatchSize then |msgs| - i else EmbedBatchSize)
    requires EmbedProgress(msgs, embed, i, calls, vectors)
    requires embed(Texts(msgs[i..i + k])) == Ok(v)
    ensures EmbedProgress(msgs, embed, i + k, calls + [Texts(msgs[i..i + k])], vectors + v)
  {
    EmbedBatchesStep(msgs, i, k, embed);
    var texts := Texts(msgs[i..i + k]);
    var rest := EmbedBatches(msgs[i + k..], embed);
    PrependAssoc(vectors, v, rest.vectors);
    assert calls + ([texts] + rest.calls) == (calls + [texts]) + rest.calls;
  }

  /** A batch that fails ends the run with its error, after its call. */
  lemma EmbedProgressFails(msgs: seq<ChatMessage>, embed: seq<string> -> Result<seq<Vector>>, i: nat, k: nat,
                           calls: seq<seq<string>>, vectors: seq<Vector>)
    requires i < |msgs| && k == (if |msgs| - i < EmbedBatchSize then |msgs| - i else EmbedBatchSize)
    requires EmbedProgress(msgs, embed, i, calls, vectors)
    requires embed(Texts(msgs[i..i + k])).Err?
    ensures EmbedBatches(msgs, embed).calls == calls + [Texts(msgs[i..i + k])]
    ensures EmbeddingsOf(msgs, embed) == Err(embed(Texts(msgs[i..i + k])).error)
  {
    EmbedBatchesStep(msgs, i, k, embed);
  }

  /** `get_model_embeddings`: the batch loop, returning the matrix and, as
      the observable effect, the texts of every `embed_content` call. */
  method GetModelEmbeddings(msgs: seq<ChatMessage>, embed: seq<string> -> Result<seq<Vector>>)
    returns (r: Result<seq<Row>>, calls: seq<seq<string>>)
    ensures calls == EmbedBatches(msgs, embed).calls
    ensures r == EmbeddingsOf(msgs, embed)
  {
    var vectors: seq<Vector> := [];
    var times: seq<int> := [];
    calls := [];
    var i := 0;
    EmbedProgressStart(msgs, embed);
    while i < |msgs|
      invariant 0 <= i <= |msgs|
      invariant times == Times(msgs[..i])
      invariant EmbedProgress(msgs, embed, i, calls, vectors)
      decreases |msgs| - i
    {
      var k := if |msgs| - i < EmbedBatchSize then |msgs| - i else EmbedBatchSize;
      var batch := msgs[i..i + k];
      assert times + Times(batch) == Times(msgs[..i + k]) by {
        TimesExtend(msgs, i, k);
      }
      times := times + Times(batch);
      var texts := EmbeddingTexts(batch);
      var response := embed(texts);
      if response.Err? {
        assert EmbedBatches(msgs, embed).calls == calls + [texts]
               && EmbeddingsOf(msgs, embed) == Err(response.error) by {
          EmbedProgressFails(msgs, embed, i, k, calls, vectors);
        }
        calls := calls + [texts];
        return Err(response.error), calls;
      }
      assert EmbedProgress(msgs, embed, i + k, calls + [texts], vectors + response.value) by {
        EmbedProgressStep(msgs, embed, i, k, calls, vectors, response.value);
      }
      calls := calls + [texts];
      vectors := vectors + response.value;
      i := i + k;
    }
    EmbedProgressEnd(msgs, embed, calls, vectors);
    assert msgs[..i] == msgs;
    r := Combine(vectors, times);
  }

  lemma EmbedProgressStart(msgs: seq<ChatMessage>, embed: seq<string> -> Result<seq<Vector>>)
    ensures EmbedProgress(msgs, embed, 0, [], [])
  {
    assert msgs[0..] == msgs;
    PrependEmpty(EmbedBatches(msgs, embed).vectors);
    assert [] + EmbedBatches(msgs, embed).calls == EmbedBatches(msgs, embed).calls;
  }

  lemma EmbedProgressEnd(msgs: seq<ChatMessage>, embed: seq<string> -> Result<seq<Vector>>,
                         calls: seq<seq<string>>, vectors: seq<Vector>)
    requires EmbedProgress(msgs, embed, |msgs|, calls, vectors)
    ensures EmbedBatches(msgs, embed).calls == calls
    ensures EmbedBatches(msgs, embed).vectors == Ok(vectors)
  {
    assert msgs[|msgs|..] == [];
    assert calls + [] == calls;
    assert vectors + [] == vectors;
  }

  lemma TimesExtend(msgs: seq<ChatMessage>, i: nat, k: nat)
    requires i + k <= |msgs|
    ensures Times(msgs[..i]) + Times(msgs[i..i + k]) == Times(msgs[..i + k])
  {
    assert msgs[..i + k] == msgs[..i] + msgs[i..i + k];
  }

  // ---------------------------------------------------------------------
  // analyze_messages

  function MessageTexts(msgs: seq<ChatMessage>): (t: seq<string>)
    ensures |t| == |msgs|
    ensures forall i :: 0 <= i < |msgs| ==> t[i] == msgs[i].text
  {
    seq(|msgs|, i requires 0 <= i < |msgs| => msgs[i].text)
  }

  function Zip<A, B>(xs: seq<A>, ys: seq<B>): (z: seq<(A, B)>)
    ensures |z| == if |xs| < |ys| then |xs| else |ys|
    ensures forall i :: 0 <= i < |z| ==> z[i] == (xs[i], ys[i])
  {
    var n := if |xs| < |ys| then |xs| else |ys|;
    seq(n, i requires 0 <= i < n => (xs[i], ys[i]))
  }

  /** What `analyze_messages` returns: an empty analysis for an empty
      selection; otherwise the TF-IDF row sums over the selected bodies, the
      embeddings of the selection, and the zipped pairs. */
  function AnalysisOf(msgs: seq<ChatMessage>, num: Numerics,
                      tfidf: seq<string> -> Result<seq<real>>,
                      embed: seq<string> -> Result<seq<Vector>>): Result<Analysis>
  {
    var selected := SelectImportant(msgs, num);
    if selected == [] then Ok(Analysis([], []))
    else
      var scores :- tfidf(MessageTexts(selected));
      var rows :- EmbeddingsOf(selected, embed);
      Ok(Analysis(Zip(selected, scores), rows))
  }

  /** `analyze_messages`. The `batch_size` argument is accepted and unused:
      the embedding batches are always 256 long. */
  method AnalyzeMessages(msgs: seq<ChatMessage>, num: Numerics,
                         tfidf: seq<string> -> Result<seq<real>>,
                         embed: seq<string> -> Result<seq<Vector>>,
                         batchSize: int)
    returns (r: Result<Analysis>)
    ensures r == AnalysisOf(msgs, num, tfidf, embed)
  {
    var selected := SelectImportant(msgs, num);
    if selected == [] {
      return Ok(Analysis([], []));
    }
    var scores := tfidf(MessageTexts(selected));
    if scores.Err? {
      return Err(scores.error);
    }
    var rows, _ := GetModelEmbeddings(selected, embed);
    if rows.Err? {
      return Err(rows.error);
    }
    r := Ok(Analysis(Zip(selected, scores.value), rows.value));
  }

  /** The pairs are empty exactly for an empty input; otherwise pair i holds
      the i-th selected message and its row sum. */
  lemma AnalysisPairs(msgs: seq<ChatMessage>, num: Numerics,
                      tfidf: seq<string> -> Result<seq<real>>,
                      embed: seq<string> -> Result<seq<Vector>>)
    requires forall ts :: tfidf(ts).Ok? ==> |tfidf(ts).value| == |ts|
    ensures var r := AnalysisOf(msgs, num, tfidf, embed);
      r.Ok? ==>
        && (r.value.pairs == [] <==> msgs == [])
        && |r.value.pairs| == |SelectImportant(msgs, num)|
        && forall i :: 0 <= i < |r.value.pairs| ==>
             r.value.pairs[i].0 == SelectImportant(msgs, num)[i] &&
             r.value.pairs[i].1 == tfidf(MessageTexts(SelectImportant(msgs, num))).value[i]
  {
    SelectionEmptyIff(msgs, num);
  }

  // ---------------------------------------------------------------------
  // 3. cluster_messages

  const Noise: int := -1

  function PairScore(p: (ChatMessage, real)): real { p.1 }

  /** The non-noise labels in order of first appearance. */
  function FirstSeen(labels: seq<int>): seq<int> {
    if labels == [] then []
    else
      var f := FirstSeen(labels[..|labels| - 1]);
      var l := labels[|labels| - 1];
      if l == Noise || l in f then f else f + [l]
  }

  /** Every non-noise label has a message to index. */
  predicate Indexable(labels: seq<int>, n: nat) {
    forall i :: 0 <= i < |labels| && labels[i] != Noise ==> i < n
  }

  /** The pairs labelled `l`, in input order. */
  function Members(pairs: seq<(ChatMessage, real)>, labels: seq<int>, l: int): seq<(ChatMessage, real)>
    requires l != Noise && Indexable(labels, |pairs|)
  {
    if labels == [] then []
    else
      var k := |labels| - 1;
      Members(pairs, labels[..k], l) + (if labels[k] == l then [pairs[k]] else [])
  }

  function Firsts(ps: seq<(ChatMessage, real)>): (ms: seq<ChatMessage>)
    ensures |ms| == |ps|
    ensures forall i :: 0 <= i < |ps| ==> ms[i] == ps[i].0
  {
    seq(|ps|, i requires 0 <= i < |ps| => ps[i].0)
  }

  /** `[msg for msg, score in sorted(group, key=score, reverse=True)[:2]]`. */
  function TopTwo(group: seq<(ChatMessage, real)>): seq<(ChatMessage, real)> {
    var s := SortDesc(group, PairScore);
    if |s| <= 2 then s else s[..2]
  }

  /** The messages that represent cluster `l`. */
  function Representative(pairs: seq<(ChatMessage, real)>, labels: seq<int>, l: int): seq<ChatMessage>
    requires l != Noise && Indexable(labels, |pairs|)
  {
    Firsts(TopTwo(Members(pairs, labels, l)))
  }

  function Representatives(pairs: seq<(ChatMessage, real)>, labels: seq<int>): seq<seq<ChatMessage>>
    requires Indexable(labels, |pairs|)
  {
    var order := FirstSeen(labels);
    seq(|order|, j requires 0 <= j < |order| =>
      FirstSeenNotNoise(labels, order[j]);
      Representative(pairs, labels, order[j]))
  }

  /** What `cluster_messages` returns. */
  function ClustersOf(pairs: seq<(ChatMessage, real)>, matrix: seq<Row>,
                      clusterer: seq<Row> -> Result<seq<int>>): Result<seq<seq<ChatMessage>>>
  {
    if pairs == [] then Err(ValueError("not enough values to unpack (expected 2, got 0)"))
    else if matrix == [] then Ok([])
    else
      var labels :- clusterer(matrix);
      if !Indexable(labels, |pairs|) then Err(IndexError)
      else Ok(Representatives(pairs, labels))
  }

  method ClusterMessages(pairs: seq<(ChatMessage, real)>, matrix: seq<Row>,
                         clusterer: seq<Row> -> Result<seq<int>>)
    returns (r: Result<seq<seq<ChatMessage>>>)
    ensures r == ClustersOf(pairs, matrix, clusterer)
  {
    if pairs == [] {
      return Err(ValueError("not enough values to unpack (expected 2, got 0)"));
    }
    if matrix == [] {
      return Ok([]);
    }
    var fitted := clusterer(matrix);
    if fitted.Err? {
      return Err(fitted.error);
    }
    var labels := fitted.value;
    var ok, order, groups := GroupByLabel(pairs, labels);
    if !ok {
      return Err(IndexError);
    }
    var out := PickRepresentatives(pairs, labels, order, groups);
    r := Ok(out);
  }

  /** The first loop of `cluster_messages`: the label order and each
      label's (message, score) pairs; `ok` is false when a label points
      past the end of `pairs`. */
  method GroupByLabel(pairs: seq<(ChatMessage, real)>, labels: seq<int>)
    returns (ok: bool, order: seq<int>, groups: map<int, seq<(ChatMessage, real)>>)
    ensures ok <==> Indexable(labels, |pairs|)
    ensures ok ==> order == FirstSeen(labels)
    ensures ok ==> (forall l :: l in order ==> l in groups) && (forall l :: l in groups ==> l in order) && Noise !in groups
    ensures ok ==> forall l :: l in groups ==> groups[l] == Members(pairs, labels, l)
  {
    order := [];
    groups := map[];
    var i := 0;
    while i < |labels|
      invariant 0 <= i <= |labels|
      invariant Indexable(labels[..i], |pairs|)
      invariant order == FirstSeen(labels[..i])
      invariant forall l :: l in groups <==> l in order
      invariant Noise !in groups
      invariant forall l :: l in groups ==> groups[l] == Members(pairs, labels[..i], l)
    {
      var l := labels[i];
      if l != Noise && i >= |pairs| {
        assert !Indexable(labels, |pairs|);
        return false, order, groups;
      }
      ghost var next := labels[..i + 1];
      ghost var before := groups;
      MembersStep(pairs, labels, i);
      assert next[..i] == labels[..i] && next[i] == l;
      if l != Noise {
        if l in groups {
          groups := groups[l := groups[l] + [pairs[i]]];
        } else {
          order := order + [l];
          groups := groups[l := [pairs[i]]];
        }
      }
      forall l' | l' in groups
        ensures groups[l'] == Members(pairs, next, l')
      {
        assert l' != Noise;
        if l' != l || l == Noise {
          assert groups[l'] == before[l'];
        } else if l !in before {
          FirstSeenMembers(labels[..i]);
          MembersAbsent(pairs, labels[..i], l);
        }
      }
      i := i + 1;
    }
    assert labels[..i] == labels;
    ok := true;
  }

  /** The second loop of `cluster_messages`: the two best-scored messages
      of each group, groups in label order. */
  method PickRepresentatives(pairs: seq<(ChatMessage, real)>, labels: seq<int>,
                             order: seq<int>, groups: map<int, seq<(ChatMessage, real)>>)
    returns (out: seq<seq<ChatMessage>>)
    requires Indexable(labels, |pairs|) && order == FirstSeen(labels)
    requires (forall l :: l in order ==> l in groups) && (forall l :: l in groups ==> l in order) && Noise !in groups
    requires forall l :: l in groups ==> groups[l] == Members(pairs, labels, l)
    ensures out == Representatives(pairs, labels)
  {
    ghost var reps := Representatives(pairs, labels);
    assert |reps| == |order|;
    out := [];
    var j := 0;
    while j < |order|
      invariant 0 <= j <= |order|
      invariant out == reps[..j]
    {
      var l := order[j];
      assert Firsts(TopTwo(groups[l])) == reps[j] by {
        RepresentativeAt(pairs, labels, j);
        assert l in order;
      }
      PrefixGrows(reps, j);
      out := out + [Firsts(TopTwo(groups[l]))];
      j := j + 1;
    }
    assert reps[..j] == reps;
  }

  lemma PrefixGrows<T>(s: seq<T>, j: nat)
    requires j < |s|
    ensures s[..j] + [s[j]] == s[..j + 1]
  {
  }

  /** Entry `j` of the output belongs to the `j`-th label first seen. */
  lemma RepresentativeAt(pairs: seq<(ChatMessage, real)>, labels: seq<int>, j: int)
    requires Indexable(labels, |pairs|) && 0 <= j < |FirstSeen(labels)|
    ensures FirstSeen(labels)[j] != Noise && FirstSeen(labels)[j] in labels
    ensures |Representatives(pairs, labels)| == |FirstSeen(labels)|
    ensures Representatives(pairs, labels)[j] == Representative(pairs, labels, FirstSeen(labels)[j])
  {
    FirstSeenNotNoise(labels, FirstSeen(labels)[j]);
  }

  // Properties of the grouping.

  lemma {:induction false} FirstSeenNotNoise(labels: seq<int>, l: int)
    requires l in FirstSeen(labels)
    ensures l != Noise && l in labels
  {
    FirstSeenMembers(labels);
  }

  /** Adding one label appends that message to its group and to no other. */
  lemma MembersStep(pairs: seq<(ChatMessage, real)>, labels: seq<int>, i: nat)
    requires i < |labels| && Indexable(labels[..i], |pairs|)
    requires labels[i] != Noise ==> i < |pairs|
    ensures Indexable(labels[..i + 1], |pairs|)
    ensures forall l :: l != Noise ==>
      Members(pairs, labels[..i + 1], l) == Members(pairs, labels[..i], l) + (if labels[i] == l then [pairs[i]] else [])
  {
    var next := labels[..i + 1];
    assert next[..i] == labels[..i];
  }

  lemma {:induction false} MembersAbsent(pairs: seq<(ChatMessage, real)>, labels: seq<int>, l: int)
    requires l != Noise && Indexable(labels, |pairs|) && l !in labels
    ensures Members(pairs, labels, l) == []
  {
    if labels != [] {
      var k := |labels| - 1;
      assert forall x :: x in labels[..k] ==> x in labels;
      MembersAbsent(pairs, labels[..k], l);
    }
  }

  lemma {:induction false} FirstSeenMembers(labels: seq<int>)
    ensures forall l :: l in FirstSeen(labels) <==> l != Noise && l in labels
  {
    if labels != [] {
      var k := |labels| - 1;
      FirstSeenMembers(labels[..k]);
      assert labels == labels[..k] + [labels[k]];
    }
  }

  /** Some occurrence of `a` comes before every occurrence of `b`. */
  ghost predicate AppearsBefore(labels: seq<int>, a: int, b: int) {
    exists p :: 0 <= p < |labels| && labels[p] == a && forall q :: 0 <= q <= p ==> labels[q] != b
  }

  lemma AppearsBeforeExtends(pre: seq<int>, labels: seq<int>, a: int, b: int)
    requires pre <= labels && AppearsBefore(pre, a, b)
    ensures AppearsBefore(labels, a, b)
  {
    var p :| 0 <= p < |pre| && pre[p] == a && forall q :: 0 <= q <= p ==> pre[q] != b;
    assert labels[p] == a;
    forall q | 0 <= q <= p ensures labels[q] != b {
      assert labels[q] == pre[q];
    }
  }

  /** One entry per distinct non-noise label, in order of first appearance. */
  lemma {:induction false} FirstSeenOrder(labels: seq<int>)
    ensures forall i, j :: 0 <= i < j < |FirstSeen(labels)| ==> FirstSeen(labels)[i] != FirstSeen(labels)[j]
    ensures forall i, j :: 0 <= i < j < |FirstSeen(labels)| ==> AppearsBefore(labels, FirstSeen(labels)[i], FirstSeen(labels)[j])
  {
    if labels != [] {
      var k := |labels| - 1;
      var pre := labels[..k];
      FirstSeenOrder(pre);
      FirstSeenMembers(pre);
      var f0 := FirstSeen(pre);
      var f := FirstSeen(labels);
      assert f == f0 || f == f0 + [labels[k]];
      forall i, j | 0 <= i < j < |f|
        ensures AppearsBefore(labels, f[i], f[j])
      {
        assert f[i] == f0[i];
        if j < |f0| {
          assert f[j] == f0[j];
          assert AppearsBefore(pre, f0[i], f0[j]);
          AppearsBeforeExtends(pre, labels, f[i], f[j]);
        } else {
          assert f[j] == labels[k] && f[j] !in pre;
          assert f[i] in f0;
          var p :| 0 <= p < |pre| && pre[p] == f[i];
          assert labels[p] == f[i];
          forall q | 0 <= q <= p ensures labels[q] != f[j] {
            assert labels[q] == pre[q];
          }
        }
      }
    }
  }

  lemma {:induction false} MembersOf(pairs: seq<(ChatMessage, real)>, labels: seq<int>, l: int)
    requires l != Noise && Indexable(labels, |pairs|)
    ensures forall x :: x in Members(pairs, labels, l) ==>
      exists i :: 0 <= i < |labels| && labels[i] == l && pairs[i] == x
    ensures l in labels ==> |Members(pairs, labels, l)| > 0
  {
    if labels != [] {
      var k := |labels| - 1;
      assert Indexable(labels[..k], |pairs|);
      MembersOf(pairs, labels[..k], l);
      if l in labels && labels[k] != l {
        var p :| 0 <= p < |labels| && labels[p] == l;
        assert labels[..k][p] == l;
      }
    }
  }

  /** Each cluster holds one or two messages, the best-scoring message of
      its group first and the second scoring no higher. */
  lemma TopTwoShape(group: seq<(ChatMessage, real)>)
    requires |group| > 0
    ensures var t := TopTwo(group);
      && |t| == (if |group| < 2 then |group| else 2)
      && (forall x :: x in group ==> t[0].1 >= x.1)
      && (|t| == 2 ==> t[0].1 >= t[1].1)
      && multiset(t) <= multiset(group)
  {
    var s := SortDesc(group, PairScore);
    SortDescSorted(group, PairScore);
    var t := TopTwo(group);
    forall x | x in group ensures t[0].1 >= x.1 {
      SortedHeadIsMax(s, group, PairScore, x);
    }
    if |s| > 2 {
      assert s == s[..2] + s[2..];
      assert multiset(s) == multiset(s[..2]) + multiset(s[2..]);
    }
  }

  /** Two kept messages with equal scores are the first two messages of the
      group with that score, in input order. */
  lemma TopTwoTies(group: seq<(ChatMessage, real)>)
    requires |group| >= 2
    requires TopTwo(group)[0].1 == TopTwo(group)[1].1
    ensures |WithKey(group, PairScore, TopTwo(group)[0].1)| >= 2
    ensures WithKey(group, PairScore, TopTwo(group)[0].1)[..2] == TopTwo(group)
  {
    var s := SortDesc(group, PairScore);
    var v := s[0].1;
    SortDescStable(group, PairScore, v);
    assert s == [s[0]] + ([s[1]] + s[2..]);
    assert WithKey(s, PairScore, v) == [s[0]] + WithKey(s[1..], PairScore, v);
    assert s[1..] == [s[1]] + s[2..];
    assert WithKey(s[1..], PairScore, v) == [s[1]] + WithKey(s[2..], PairScore, v);
  }

  /** No message labelled as noise reaches the output; there is one
      cluster per distinct non-noise label, in order of first appearance. */
  lemma {:induction false} ClusterOutput(pairs: seq<(ChatMessage, real)>, labels: seq<int>)
    requires Indexable(labels, |pairs|)
    ensures var out := Representatives(pairs, labels);
      && |out| == |FirstSeen(labels)|
      && forall j :: 0 <= j < |out| ==>
           1 <= |out[j]| <= 2 &&
           forall m :: m in out[j] ==>
             exists i :: 0 <= i < |labels| && labels[i] == FirstSeen(labels)[j] && labels[i] != Noise && pairs[i].0 == m
  {
    var f := FirstSeen(labels);
    var out := Representatives(pairs, labels);
    forall j | 0 <= j < |out|
      ensures 1 <= |out[j]| <= 2
      ensures forall m :: m in out[j] ==>
             exists i :: 0 <= i < |labels| && labels[i] == f[j] && labels[i] != Noise && pairs[i].0 == m
    {
      FirstSeenNotNoise(labels, f[j]);
      assert out[j] == Representative(pairs, labels, f[j]);
      RepresentativeOf(pairs, labels, f[j]);
    }
  }

  /** One cluster's representatives: one or two messages, each labelled
      with the cluster. */
  lemma {:induction false} RepresentativeOf(pairs: seq<(ChatMessage, real)>, labels: seq<int>, l: int)
    requires l != Noise && l in labels && Indexable(labels, |pairs|)
    ensures var r := Representative(pairs, labels, l);
      && 1 <= |r| <= 2
      && forall m :: m in r ==> exists i :: 0 <= i < |labels| && labels[i] == l && pairs[i].0 == m
  {
    var g := Members(pairs, labels, l);
    MembersOf(pairs, labels, l);
    TopTwoShape(g);
    var t := TopTwo(g);
    var r := Representative(pairs, labels, l);
    forall m | m in r
      ensures exists i :: 0 <= i < |labels| && labels[i] == l && pairs[i].0 == m
    {
      var q :| 0 <= q < |t| && r[q] == m;
      assert t[q] in multiset(g);
      assert t[q] in g;
    }
  }

  /** An empty pair list raises at the unpack, before the empty-matrix
      guard; the guard answers [] only for a non-empty pair list. */
  lemma ClusterGuards(pairs: seq<(ChatMessage, real)>, matrix: seq<Row>, clusterer: seq<Row> -> Result<seq<int>>)
    ensures pairs == [] ==> ClustersOf(pairs, matrix, clusterer).Err?
    ensures pairs != [] && matrix == [] ==> ClustersOf(pairs, matrix, clusterer) == Ok([])
  {
  }
}
