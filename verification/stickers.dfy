/** Sticker sets: which stickers a set offers per use case, and the random
    choice of a set and of a sticker. `random.choice` is a nondeterministic
    choice (`:|`), so the contracts say what every choice satisfies. */
module Stickers {
  import opened Wrappers

  datatype Familiarity = Low | Medium | High

  datatype UseCase = Waiting | Greeting | Farewell | Error | Positive | Negative | Memetic

  datatype Gender = Male | Female | Neutral

  /** The seven per-use-case lists; each may be None. */
  datatype StickerLists = StickerLists(
    waiting: Option<seq<string>>,
    greeting: Option<seq<string>>,
    farewell: Option<seq<string>>,
    error: Option<seq<string>>,
    positive: Option<seq<string>>,
    negative: Option<seq<string>>,
    memetic: Option<seq<string>>)

  /** `getattr(stickers, use_case.value)`. */
  function ForUseCase(s: StickerLists, u: UseCase): Option<seq<string>> {
    match u
    case Waiting => s.waiting
    case Greeting => s.greeting
    case Farewell => s.farewell
    case Error => s.error
    case Positive => s.positive
    case Negative => s.negative
    case Memetic => s.memetic
  }

  /** Python truthiness of an optional list. */
  predicate NonEmpty(o: Option<seq<string>>) { o.Some? && |o.value| > 0 }

  /** `Stickers.validate_stickers`: at least one list must hold a sticker. */
  function ValidateStickers(data: StickerLists): (r: Result<StickerLists>)
    ensures r.Err? <==> forall u: UseCase :: !NonEmpty(ForUseCase(data, u))
    ensures r.Err? ==> r.error == ValueError("At least one sticker must be provided")
    ensures r.Ok? ==> r.value == data
  {
    if !NonEmpty(data.waiting) && !NonEmpty(data.greeting) && !NonEmpty(data.farewell)
       && !NonEmpty(data.error) && !NonEmpty(data.positive) && !NonEmpty(data.negative)
       && !NonEmpty(data.memetic)
    then
      Err(ValueError("At least one sticker must be provided"))
    else
      assert || NonEmpty(ForUseCase(data, Waiting)) || NonEmpty(ForUseCase(data, Greeting))
             || NonEmpty(ForUseCase(data, Farewell)) || NonEmpty(ForUseCase(data, Error))
             || NonEmpty(ForUseCase(data, Positive)) || NonEmpty(ForUseCase(data, Negative))
             || NonEmpty(ForUseCase(data, Memetic));
      Ok(data)
  }

  /** A set; familiarity and gender are optional fields. */
  datatype StickerSet = StickerSet(
    setName: string,
    familiarity: Option<Familiarity>,
    gender: Option<Gender>,
    stickers: StickerLists)

  /** `StickerFetchResponse`, whose familiarity and gender are required. */
  datatype FetchResponse = FetchResponse(sticker: string, setName: string, familiarity: Familiarity, gender: Gender)

  /** `StickerSet.get_sticker`. Building the response fails validation when
      the set has no familiarity or no gender. */
  method GetSticker(stickerSet: StickerSet, u: UseCase) returns (r: Result<Option<FetchResponse>>)
    ensures r == Ok(None) <==> !NonEmpty(ForUseCase(stickerSet.stickers, u))
    ensures r.Err? <==> NonEmpty(ForUseCase(stickerSet.stickers, u)) && (stickerSet.familiarity.None? || stickerSet.gender.None?)
    ensures r.Err? ==> r.error.ValidationError?
    ensures r.Ok? && r.value.Some? ==>
      && r.value.value.sticker in ForUseCase(stickerSet.stickers, u).value
      && r.value.value.setName == stickerSet.setName
      && Some(r.value.value.familiarity) == stickerSet.familiarity
      && Some(r.value.value.gender) == stickerSet.gender
  {
    var useCaseStickers := ForUseCase(stickerSet.stickers, u);
    if !NonEmpty(useCaseStickers) {
      return Ok(None);
    }
    var k :| 0 <= k < |useCaseStickers.value|;
    var response := useCaseStickers.value[k];
    if stickerSet.familiarity.None? {
      return Err(ValidationError("familiarity_level"));
    }
    if stickerSet.gender.None? {
      return Err(ValidationError("gender"));
    }
    r := Ok(Some(FetchResponse(response, stickerSet.setName, stickerSet.familiarity.value, stickerSet.gender.value)));
  }

  /** `get_sticker_set`: the first set with the given name. */
  method GetStickerSet(sets: seq<StickerSet>, name: string) returns (r: Result<StickerSet>)
    ensures r.Err? <==> forall i :: 0 <= i < |sets| ==> sets[i].setName != name
    ensures r.Err? ==> r.error.ValueError?
    ensures r.Ok? ==> exists i :: 0 <= i < |sets| && sets[i] == r.value && r.value.setName == name
                                 && forall j :: 0 <= j < i ==> sets[j].setName != name
  {
    var i := 0;
    while i < |sets|
      invariant 0 <= i <= |sets|
      invariant forall j :: 0 <= j < i ==> sets[j].setName != name
    {
      if sets[i].setName == name {
        return Ok(sets[i]);
      }
      i := i + 1;
    }
    r := Err(ValueError("Sticker set " + name + " not found"));
  }

  /** The sets `get_random_set` draws from. */
  function Selection(sets: seq<StickerSet>, familiarity: Option<Familiarity>): (r: seq<StickerSet>)
    ensures familiarity.None? ==> r == sets
    ensures forall s :: s in r <==> s in sets && (familiarity.Some? ==> s.familiarity == familiarity)
  {
    if familiarity.None? then sets
    else if sets == [] then []
    else (if sets[0].familiarity == familiarity then [sets[0]] else []) + Selection(sets[1..], familiarity)
  }

  /** `get_random_set`: `random.choice` of an empty selection raises. */
  method GetRandomSet(sets: seq<StickerSet>, familiarity: Option<Familiarity>) returns (r: Result<StickerSet>)
    ensures r.Err? <==> Selection(sets, familiarity) == []
    ensures r.Err? ==> r.error == IndexError
    ensures r.Ok? ==> r.value in sets && (familiarity.Some? ==> r.value.familiarity == familiarity)
  {
    var selection := Selection(sets, familiarity);
    if selection == [] {
      return Err(IndexError);
    }
    var k :| 0 <= k < |selection|;
    assert selection[k] in selection;
    r := Ok(selection[k]);
  }

  const MaxDraws: nat := 3

  /** `get_random_sticker`: up to three draws of a set and a sticker; the
      first sticker found is returned. */
  method GetRandomSticker(sets: seq<StickerSet>, u: UseCase, familiarity: Option<Familiarity>)
    returns (r: Result<Option<FetchResponse>>, draws: nat)
    ensures 1 <= draws <= MaxDraws
    ensures r.Err? ==> (r.error == IndexError && Selection(sets, familiarity) == [])
                       || r.error.ValidationError?
    ensures Selection(sets, familiarity) == [] ==> r == Err(IndexError) && draws == 1
    ensures r.Ok? && r.value.None? ==> draws == MaxDraws
    ensures r.Ok? && r.value.Some? ==>
      exists s :: s in sets && (familiarity.Some? ==> s.familiarity == familiarity)
                  && NonEmpty(ForUseCase(s.stickers, u))
                  && r.value.value.sticker in ForUseCase(s.stickers, u).value
                  && r.value.value.setName == s.setName
  {
    draws := 0;
    while draws < MaxDraws
      invariant draws <= MaxDraws
      invariant Selection(sets, familiarity) == [] ==> draws == 0
    {
      var chosen := GetRandomSet(sets, familiarity);
      draws := draws + 1;
      if chosen.Err? {
        return Err(chosen.error), draws;
      }
      var response := GetSticker(chosen.value, u);
      if response.Err? {
        return response, draws;
      }
      if response.value.Some? {
        return response, draws;
      }
    }
    r := Ok(None);
  }

  // The sets that ship with the bot.

  function SomeList(xs: seq<string>): Option<seq<string>> { Some(xs) }

  const RegularDudeStickers := StickerLists(
    SomeList(["🫠", "😞", "🤓"]), SomeList(["😃"]), SomeList([]), SomeList(["😔"]),
    SomeList(["😃"]), SomeList(["😔", "😖"]), SomeList(["🤑", "🫠"]))

  const MiladyStickers := StickerLists(
    SomeList(["😶"]), SomeList(["❤️", "☀️"]), SomeList(["🐥"]), SomeList(["🤟"]),
    SomeList(["❤️", "😈", "👍"]), SomeList(["😡", "🧐", "🤔"]), SomeList(["🙏"]))

  const JudyStickers := StickerLists(
    SomeList(["👍", "🤔"]), SomeList(["👋", "😴"]), SomeList(["😴"]), SomeList(["🤷‍♀️", "😢"]),
    SomeList(["😂", "😘", "👍", "❤️"]), SomeList(["🙅‍♀️", "😭"]), SomeList(["😴", "😔"]))

  const RegularDudeSet := StickerSet("Alliance_Mascot", Some(Medium), Some(Neutral), RegularDudeStickers)
  const MiladySet := StickerSet("MiladyWO", Some(High), Some(Neutral), MiladyStickers)
  const JudySet := StickerSet("JudyAlvarez", Some(Medium), Some(Female), JudyStickers)

  const SupportedStickerSets := [RegularDudeSet, MiladySet, JudySet]

  /** Every built-in list passes validation. */
  lemma BuiltinStickersValid()
    ensures ValidateStickers(RegularDudeStickers).Ok?
    ensures ValidateStickers(MiladyStickers).Ok?
    ensures ValidateStickers(JudyStickers).Ok?
  {
    assert NonEmpty(ForUseCase(RegularDudeStickers, Waiting));
    assert NonEmpty(ForUseCase(MiladyStickers, Waiting));
    assert NonEmpty(ForUseCase(JudyStickers, Waiting));
  }

  /** Asking for HIGH familiarity can only pick MiladyWO; with no level
      every set can be drawn; LOW has no set and so raises. */
  lemma BuiltinSelections()
    ensures Selection(SupportedStickerSets, Some(High)) == [MiladySet]
    ensures Selection(SupportedStickerSets, Some(Medium)) == [RegularDudeSet, JudySet]
    ensures Selection(SupportedStickerSets, Some(Low)) == []
  {
    var s := SupportedStickerSets;
    assert s[1..] == [MiladySet, JudySet] && s[1..][1..] == [JudySet] && s[1..][1..][1..] == [];
    forall f: Option<Familiarity> | f.Some?
      ensures Selection(s, f) == (if f == RegularDudeSet.familiarity then [RegularDudeSet] else [])
                                 + (if f == MiladySet.familiarity then [MiladySet] else [])
                                 + (if f == JudySet.familiarity then [JudySet] else [])
    {
      assert Selection(s[1..][1..], f) == (if f == JudySet.familiarity then [JudySet] else []) + [];
      assert Selection(s[1..], f) == (if f == MiladySet.familiarity then [MiladySet] else []) + Selection(s[1..][1..], f);
    }
  }

  /** Every built-in set has both a familiarity and a gender, so drawing a
      sticker from it never fails validation. */
  lemma BuiltinSetsComplete(s: StickerSet)
    requires s in SupportedStickerSets
    ensures s.familiarity.Some? && s.gender.Some?
  {
  }
}
