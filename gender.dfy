/** The Gender enum: a description and the one-letter database value. */
module Genders {
  import opened Wrappers
  import opened Failures
  import opened JavaText
  import Lookup

  datatype Gender = MALE | FEMALE | OTHER | UNKNOWN
  {
    /** getValue(): the stored letter. */
    function Value(): string {
      match this
      case MALE => "M"
      case FEMALE => "F"
      case OTHER => "O"
      case UNKNOWN => "U"
    }

    function Description(): string {
      match this
      case MALE => "男"
      case FEMALE => "女"
      case OTHER => "其他"
      case UNKNOWN => "未知"
    }

    /** Enum.name(). */
    function Name(): string {
      match this
      case MALE => "MALE"
      case FEMALE => "FEMALE"
      case OTHER => "OTHER"
      case UNKNOWN => "UNKNOWN"
    }
  }

  /** Gender.values(), in declaration order. */
  const AllGenders: seq<Gender> := [MALE, FEMALE, OTHER, UNKNOWN]

  function GenderValue(g: Gender): Option<string> { Some(g.Value()) }

  function GenderName(g: Gender): string { g.Name() }

  function GenderIndex(g: Gender): (i: nat)
    ensures i < |AllGenders| && AllGenders[i] == g
  {
    match g
    case MALE => 0
    case FEMALE => 1
    case OTHER => 2
    case UNKNOWN => 3
  }

  /** fromValue: the gender whose letter equals the argument, else an
      IllegalArgumentException without a message. */
  function GenderFromValue(value: Option<string>): (r: Result<Gender, Failure>)
    ensures r.Ok? ==> Some(r.value.Value()) == value
    ensures r.Err? <==> forall g: Gender :: Some(g.Value()) != value
    ensures r.Err? ==> r.error == IllegalArgumentNoMessage
  {
    var found := Lookup.FindFirst(AllGenders, GenderValue, value);
    assert found.None? ==> forall g: Gender :: Some(g.Value()) != value by {
      if found.None? {
        forall g: Gender ensures Some(g.Value()) != value {
          assert GenderValue(AllGenders[GenderIndex(g)]) != value;
        }
      }
    }
    if found.Some? then Ok(found.value) else Err(IllegalArgumentNoMessage)
  }

  /** Gender.valueOf: the constant with this exact name. */
  function GenderValueOf(name: string): (r: Option<Gender>)
    ensures r.Some? ==> r.value.Name() == name
    ensures r.None? <==> forall g: Gender :: g.Name() != name
  {
    var found := Lookup.FindFirst(AllGenders, GenderName, name);
    assert found.None? ==> forall g: Gender :: g.Name() != name by {
      if found.None? {
        forall g: Gender ensures g.Name() != name {
          assert GenderName(AllGenders[GenderIndex(g)]) != name;
        }
      }
    }
    found
  }

  /** The letters are pairwise distinct, so fromValue inverts getValue. */
  lemma GenderRoundTrip(g: Gender)
    ensures GenderFromValue(Some(g.Value())) == Ok(g)
  {
    assert Lookup.KeysDistinct(AllGenders, GenderValue);
    Lookup.FindOwnKey(AllGenders, GenderValue, AllGenders[GenderIndex(g)]);
  }

  /** The names are pairwise distinct, so valueOf inverts name(). */
  lemma GenderNameRoundTrip(g: Gender)
    ensures GenderValueOf(g.Name()) == Some(g)
  {
    assert Lookup.KeysDistinct(AllGenders, GenderName);
    Lookup.FindOwnKey(AllGenders, GenderName, AllGenders[GenderIndex(g)]);
  }

  lemma GenderValuesDistinct(g: Gender, h: Gender)
    requires g != h
    ensures g.Value() != h.Value()
  {
  }

  /** Only "U" reads back as UNKNOWN; anything unrecognised throws instead. */
  lemma UnknownOnlyFromU(value: Option<string>)
    ensures GenderFromValue(value) == Ok(UNKNOWN) <==> value == Some("U")
  {
    if value == Some(UNKNOWN.Value()) {
      GenderRoundTrip(UNKNOWN);
    }
  }
}
