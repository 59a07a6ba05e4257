/** The simulated streaming reply: a long text is sent as its first 100
    characters and then grown by editing the message, 200 characters at a
    time. The messages themselves are left out; the model returns what is
    sent and what each edit carries. */
module MessageUtils {

  /** Texts up to this length are sent in one go. */
  const FirstChunk: nat := 100
  /** How much each edit adds. */
  const ChunkSize: nat := 200

  function Min(a: int, b: int): int { if a <= b then a else b }

  /** How many edits a text of length n gets. */
  function EditCount(n: nat): (r: nat)
    ensures n <= FirstChunk ==> r == 0
    ensures n > FirstChunk ==> FirstChunk + ChunkSize * (r - 1) < n <= FirstChunk + ChunkSize * r
  {
    if n <= FirstChunk then 0 else (n - FirstChunk + ChunkSize - 1) / ChunkSize
  }

  /** What the k-th edit (from 0) carries. */
  function EditText(text: string, k: nat): (r: string)
    ensures r <= text
  {
    text[..Min(|text|, FirstChunk + ChunkSize * (k + 1))]
  }

  /** The edits of a long text, in order. */
  function Edits(text: string): (r: seq<string>)
    ensures |r| == EditCount(|text|)
    ensures forall k :: 0 <= k < |r| ==> r[k] == EditText(text, k)
  {
    seq(EditCount(|text|), k requires 0 <= k => EditText(text, k))
  }

  /** `streaming_message_helper`: what is sent first, then each edit. */
  method StreamingMessageHelper(text: string) returns (sent: string, edits: seq<string>)
    ensures |text| <= FirstChunk ==> sent == text && edits == []
    ensures |text| > FirstChunk ==> sent == text[..FirstChunk] && edits == Edits(text)
  {
    if |text| <= FirstChunk {
      return text, [];
    }
    var totalMessage := "";
    sent := text[..FirstChunk];
    totalMessage := totalMessage + text[..FirstChunk];
    edits := [];
    var i := FirstChunk;
    while i < |text|
      invariant i == FirstChunk + ChunkSize * |edits|
      invariant i < |text| + ChunkSize
      invariant totalMessage == text[..Min(|text|, i)]
      invariant forall k :: 0 <= k < |edits| ==> edits[k] == EditText(text, k)
    {
      var chunk := text[i..Min(|text|, i + ChunkSize)];
      totalMessage := totalMessage + chunk;
      assert totalMessage == text[..Min(|text|, i + ChunkSize)];
      edits := edits + [totalMessage];
      i := i + ChunkSize;
    }
    assert |edits| == EditCount(|text|);
  }

  // Properties of the plan.

  /** A short text is never edited. */
  lemma ShortTextNoEdits(text: string)
    requires |text| <= FirstChunk
    ensures Edits(text) == []
  {
  }

  /** The last edit carries the whole text. */
  lemma LastEditIsWholeText(text: string)
    requires |text| > FirstChunk
    ensures |Edits(text)| > 0
    ensures Edits(text)[|Edits(text)| - 1] == text
  {
    var e := EditCount(|text|);
    assert EditText(text, e - 1) == text[..|text|];
  }

  /** The first send and every edit are prefixes of the text, each strictly
      longer than the one before. */
  lemma EditsGrow(text: string, k: nat)
    requires |text| > FirstChunk && k < EditCount(|text|)
    ensures text[..FirstChunk] <= EditText(text, k)
    ensures k == 0 ==> FirstChunk < |EditText(text, k)|
    ensures k > 0 ==> |EditText(text, k - 1)| < |EditText(text, k)|
  {
    assert FirstChunk + ChunkSize * k < |text|;
  }
}
