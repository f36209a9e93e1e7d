/** The account states of the user package's UserStatus enum and the
    database value each is stored as. */
module UserStatuses {
  import opened Wrappers
  import opened Failures
  import opened JavaText
  import Lookup

  datatype UserStatus = ACTIVE | INACTIVE | PENDING | BLOCKED
  {
    /** getValue(): the stored text. */
    function Value(): string {
      match this
      case ACTIVE => "active"
      case INACTIVE => "inactive"
      case PENDING => "pending"
      case BLOCKED => "blocked"
    }

    function Description(): string {
      match this
      case ACTIVE => "活跃"
      case INACTIVE => "未激活"
      case PENDING => "审核中"
      case BLOCKED => "已封禁"
    }
  }

  /** UserStatus.values(), in declaration order. */
  const AllStatuses: seq<UserStatus> := [ACTIVE, INACTIVE, PENDING, BLOCKED]

  function StatusValue(s: UserStatus): Option<string> { Some(s.Value()) }

  function StatusIndex(s: UserStatus): (i: nat)
    ensures i < |AllStatuses| && AllStatuses[i] == s
  {
    match s
    case ACTIVE => 0
    case INACTIVE => 1
    case PENDING => 2
    case BLOCKED => 3
  }

  /** fromValue: the status whose value equals the argument exactly, else
      IllegalArgumentException naming the value ("null" for null). */
  function StatusFromValue(value: Option<string>): (r: Result<UserStatus, Failure>)
    ensures r.Ok? ==> Some(r.value.Value()) == value
    ensures r.Err? <==> forall s: UserStatus :: Some(s.Value()) != value
    ensures r.Err? ==> r.error == IllegalArgument("Invalid status: " + Show(value))
  {
    var found := Lookup.FindFirst(AllStatuses, StatusValue, value);
    assert found.None? ==> forall s: UserStatus :: Some(s.Value()) != value by {
      if found.None? {
        forall s: UserStatus ensures Some(s.Value()) != value {
          assert StatusValue(AllStatuses[StatusIndex(s)]) != value;
        }
      }
    }
    if found.Some? then Ok(found.value) else Err(IllegalArgument("Invalid status: " + Show(value)))
  }

  /** The values are pairwise distinct, so fromValue inverts getValue. */
  lemma StatusRoundTrip(s: UserStatus)
    ensures StatusFromValue(Some(s.Value())) == Ok(s)
  {
    assert Lookup.KeysDistinct(AllStatuses, StatusValue);
    Lookup.FindOwnKey(AllStatuses, StatusValue, AllStatuses[StatusIndex(s)]);
  }

  lemma StatusValuesDistinct(s: UserStatus, t: UserStatus)
    requires s != t
    ensures s.Value() != t.Value()
  {
  }

  /** Matching is case-sensitive: the constant's name is rejected. */
  lemma StatusFromValueCaseSensitive()
    ensures StatusFromValue(Some("ACTIVE")).Err?
  {
    forall s: UserStatus ensures Some(s.Value()) != Some("ACTIVE") {
      assert s.Value()[0] != 'A';
    }
  }
}
