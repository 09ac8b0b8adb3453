/** The status-map builder of `refreshAccountStatuses`
    (src/context/APIContext.tsx): it turns the batch status response and the
    known accounts into a map from account id to `{valid, error}`. */
module StatusMap {
  import opened Wrappers
  import opened Records

  /** Sentinel for every known account when the batch response is empty. */
  const STATUS_UNAVAILABLE := "状态不可用"
  /** Fallback reason when the batch call rejects with no message. */
  const CHECK_FAILED := "检查失败"

  const UNAVAILABLE := Status(false, Some(STATUS_UNAVAILABLE))

  /** The ids of the known accounts. */
  function Ids(accounts: seq<Account>): set<string>
  {
    set k | 0 <= k < |accounts| :: accounts[k].id
  }

  /** `it && it.id`: the response item is present and carries a non-empty id. */
  predicate Reported(it: Option<StatusItem>)
  {
    it.Some? && it.value.id != ""
  }

  /** The ids the batch response reports. */
  function ItemIds(arr: seq<Option<StatusItem>>): set<string>
  {
    set k | 0 <= k < |arr| && Reported(arr[k]) :: arr[k].value.id
  }

  /** `{valid: !!it.valid, error: it.error}`. */
  function Coerced(it: StatusItem): (st: Status)
    ensures st.valid <==> it.valid == Some(true)
    ensures it.valid.None? ==> !st.valid
    ensures st.error == it.error
  {
    Status(it.valid == Some(true), it.error)
  }

  /** Item k is the last item of the response that reports its id. */
  predicate LastReport(arr: seq<Option<StatusItem>>, k: int)
    requires 0 <= k < |arr|
  {
    Reported(arr[k]) &&
    forall j :: k < j < |arr| ==> !(Reported(arr[j]) && arr[j].value.id == arr[k].value.id)
  }

  /** The map after the first loop has seen the items of `arr` in order. */
  function FromItems(arr: seq<Option<StatusItem>>): map<string, Status>
  {
    if arr == [] then map[]
    else
      var m := FromItems(arr[..|arr| - 1]);
      var it := arr[|arr| - 1];
      if Reported(it) then m[it.value.id := Coerced(it.value)] else m
  }

  /** `base` after `map[acc.id] = st` for every account, in order. */
  function Marked(base: map<string, Status>, accounts: seq<Account>, st: Status): map<string, Status>
  {
    if accounts == [] then base
    else Marked(base, accounts[..|accounts| - 1], st)[accounts[|accounts| - 1].id := st]
  }

  /** The map `refreshAccountStatuses` stores for one outcome of the batch call. */
  function StatusMapAfter(probe: Outcome<seq<Option<StatusItem>>>, accounts: seq<Account>): (m: map<string, Status>)
    ensures probe.Ok? && probe.value != [] ==>
      m.Keys == ItemIds(probe.value) &&
      forall k :: 0 <= k < |probe.value| && LastReport(probe.value, k) ==>
        m[probe.value[k].value.id] == Coerced(probe.value[k].value)
    ensures probe.Ok? && probe.value == [] ==>
      m.Keys == Ids(accounts) && forall id :: id in m ==> m[id] == UNAVAILABLE
    ensures probe.Fail? ==>
      m.Keys == Ids(accounts) &&
      forall id :: id in m ==> m[id] == Status(false, Some(ErrorText(probe.error, CHECK_FAILED)))
  {
    match probe
    case Ok(arr) =>
      FromItemsSpec(arr);
      if |arr| == 0 && |accounts| > 0 then
        MarkedSpec(FromItems(arr), accounts, UNAVAILABLE);
        Marked(FromItems(arr), accounts, UNAVAILABLE)
      else
        FromItems(arr)
    case Fail(e) =>
      var st := Status(false, Some(ErrorText(e, CHECK_FAILED)));
      MarkedSpec(map[], accounts, st);
      Marked(map[], accounts, st)
  }

  /** The two `for` loops of `refreshAccountStatuses` (and the one of its
      `catch` block), filling a fresh map in place. */
  method BuildStatusMap(probe: Outcome<seq<Option<StatusItem>>>, accounts: seq<Account>)
    returns (m: map<string, Status>)
    ensures m == StatusMapAfter(probe, accounts)
  {
    match probe {
      case Ok(arr) =>
        m := map[];
        for i := 0 to |arr|
          invariant m == FromItems(arr[..i])
        {
          assert arr[..i + 1][..i] == arr[..i];
          var it := arr[i];
          if it.Some? && it.value.id != "" {
            m := m[it.value.id := Coerced(it.value)];
          }
        }
        assert arr[..|arr|] == arr;
        if |arr| == 0 && |accounts| > 0 {
          ghost var base := m;
          for j := 0 to |accounts|
            invariant m == Marked(base, accounts[..j], UNAVAILABLE)
          {
            assert accounts[..j + 1][..j] == accounts[..j];
            m := m[accounts[j].id := UNAVAILABLE];
          }
          assert accounts[..|accounts|] == accounts;
        }
      case Fail(e) =>
        var st := Status(false, Some(ErrorText(e, CHECK_FAILED)));
        m := map[];
        for j := 0 to |accounts|
          invariant m == Marked(map[], accounts[..j], st)
        {
          assert accounts[..j + 1][..j] == accounts[..j];
          m := m[accounts[j].id := st];
        }
        assert accounts[..|accounts|] == accounts;
    }
  }

  /** The first loop gives an entry exactly to each reported id, and for a
      repeated id the later item wins. */
  lemma {:induction false} FromItemsSpec(arr: seq<Option<StatusItem>>)
    ensures FromItems(arr).Keys == ItemIds(arr)
    ensures forall k :: 0 <= k < |arr| && LastReport(arr, k) ==>
      FromItems(arr)[arr[k].value.id] == Coerced(arr[k].value)
  {
    if arr != [] {
      var n := |arr| - 1;
      var init := arr[..n];
      FromItemsSpec(init);
      assert forall k :: 0 <= k < n ==> init[k] == arr[k];
      if Reported(arr[n]) {
        assert ItemIds(arr) == ItemIds(init) + {arr[n].value.id};
      } else {
        assert ItemIds(arr) == ItemIds(init);
      }
      forall k | 0 <= k < |arr| && LastReport(arr, k)
        ensures FromItems(arr)[arr[k].value.id] == Coerced(arr[k].value)
      {
        if k < n {
          assert LastReport(init, k);
        }
      }
    }
  }

  /** Marking gives every account the status and leaves the other keys of
      the base map as they were. */
  lemma {:induction false} MarkedSpec(base: map<string, Status>, accounts: seq<Account>, st: Status)
    ensures Marked(base, accounts, st).Keys == base.Keys + Ids(accounts)
    ensures forall id :: id in Ids(accounts) ==> Marked(base, accounts, st)[id] == st
    ensures forall id :: id in base && id !in Ids(accounts) ==> Marked(base, accounts, st)[id] == base[id]
  {
    if accounts != [] {
      var n := |accounts| - 1;
      var init := accounts[..n];
      MarkedSpec(base, init, st);
      assert forall k :: 0 <= k < n ==> init[k] == accounts[k];
      assert Ids(accounts) == Ids(init) + {accounts[n].id};
    }
  }

  /** A known account the non-empty response does not report gets no entry:
      it is left for a later refresh. */
  lemma UnreportedAccountHasNoEntry(arr: seq<Option<StatusItem>>, accounts: seq<Account>, acc: Account)
    requires arr != [] && acc in accounts && acc.id !in ItemIds(arr)
    ensures acc.id !in StatusMapAfter(Ok(arr), accounts)
  {
  }

  /** Every known account receives an entry when the batch response is
      empty or the batch call fails. */
  lemma {:induction false} EveryKnownAccountMarked(probe: Outcome<seq<Option<StatusItem>>>, accounts: seq<Account>, k: int)
    requires probe.Fail? || probe == Ok([])
    requires 0 <= k < |accounts|
    ensures accounts[k].id in StatusMapAfter(probe, accounts)
    ensures probe.Ok? ==> StatusMapAfter(probe, accounts)[accounts[k].id] == UNAVAILABLE
    ensures probe.Fail? ==>
      StatusMapAfter(probe, accounts)[accounts[k].id] == Status(false, Some(ErrorText(probe.error, CHECK_FAILED)))
  {
    assert accounts[k].id in Ids(accounts);
  }

  /** With no known accounts an empty or failed batch call yields the empty
      map, and it never throws. */
  lemma NoAccountsNoEntries(probe: Outcome<seq<Option<StatusItem>>>)
    requires probe.Fail? || probe == Ok([])
    ensures StatusMapAfter(probe, []) == map[]
  {
    assert Ids([]) == {};
  }

  /** Two reports of one id: the map holds the later one only. */
  lemma LaterReportWins(a: StatusItem, b: StatusItem, accounts: seq<Account>)
    requires a.id == b.id && a.id != ""
    ensures StatusMapAfter(Ok([Some(a), Some(b)]), accounts) == map[a.id := Coerced(b)]
  {
    var arr := [Some(a), Some(b)];
    assert arr[..1] == [Some(a)];
    assert [Some(a)][..0] == [];
  }
}
