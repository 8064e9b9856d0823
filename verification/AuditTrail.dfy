/** The identity registry's audit trail: one global trail, and an index of it per account. */
module AuditTrail {
  import opened Machine
  import opened MapSum

  datatype AuditEntry = AuditEntry(
    entryId: u64, account: AccountId, action: string, performedBy: AccountId, timestamp: u64, details: string)

  /** One recorded action. */
  datatype Record = Record(account: AccountId, performedBy: AccountId, action: string, details: string, timestamp: u64)

  datatype State = State(
    trail: map<u64, AuditEntry>,
    count: u64,
    index: map<(AccountId, u64), u64>,
    perAccount: map<AccountId, u64>)

  const EMPTY := State(map[], 0, map[], map[])

  function EntryOf(r: Record, id: u64): AuditEntry {
    AuditEntry(id, r.account, r.action, r.performedBy, r.timestamp, r.details)
  }

  /** Either counter traps when exhausted. */
  function Add(s: State, r: Record): Option<State> {
    var idx := GetOr(s.perAccount, r.account, 0);
    if s.count == U64_MAX || idx == U64_MAX then None
    else
      var id := s.count + 1;
      Some(State(
        s.trail[id := EntryOf(r, id)],
        id,
        s.index[(r.account, idx) := id],
        s.perAccount[r.account := idx + 1]))
  }

  /** The entries found through the index at the positions from `i` up to `end`. */
  function Found(s: State, a: AccountId, i: u64, end: u64): seq<AuditEntry>
    decreases end - i
  {
    if i >= end then []
    else if (a, end - 1) in s.index && s.index[(a, end - 1)] in s.trail
    then Found(s, a, i, end - 1) + [s.trail[s.index[(a, end - 1)]]]
    else Found(s, a, i, end - 1)
  }

  // ----- the contract's own methods --------------------------------------------------------

  class Registry {
    var auditTrail: map<u64, AuditEntry>
    var auditCount: u64
    var accountAuditIndex: map<(AccountId, u64), u64>
    var accountAuditCount: map<AccountId, u64>

    function View(): State
      reads this
    {
      State(auditTrail, auditCount, accountAuditIndex, accountAuditCount)
    }

    constructor ()
      ensures View() == EMPTY
    {
      auditTrail, auditCount, accountAuditIndex, accountAuditCount := map[], 0, map[], map[];
    }

    method AddAuditEntry(r: Record) returns (ok: bool)
      modifies this
      ensures ok ==> Add(old(View()), r) == Some(View())
      ensures !ok ==> Add(old(View()), r) == None
    {
      if auditCount + 1 > U64_MAX {
        return false;
      }
      auditCount := auditCount + 1;
      var entryId := auditCount;
      var entry := AuditEntry(entryId, r.account, r.action, r.performedBy, r.timestamp, r.details);
      auditTrail := auditTrail[entryId := entry];
      var idx := GetOr(accountAuditCount, r.account, 0);
      accountAuditIndex := accountAuditIndex[(r.account, idx) := entryId];
      if idx + 1 > U64_MAX {
        return false;
      }
      accountAuditCount := accountAuditCount[r.account := idx + 1];
      return true;
    }

    method GetAccountAuditEntries(account: AccountId, offset: u64, limit: u64) returns (r: Option<seq<AuditEntry>>)
      ensures r == Query(View(), account, offset, limit)
    {
      var count := GetOr(accountAuditCount, account, 0);
      var entries: seq<AuditEntry> := [];
      if offset + limit > U64_MAX {
        return None;
      }
      var end: u64 := Min(offset + limit, count);
      var i := offset;
      while i < end
        invariant offset <= i && (i <= end || i == offset)
        invariant entries == Found(View(), account, offset, i)
      {
        if (account, i) in accountAuditIndex {
          var entryId := accountAuditIndex[(account, i)];
          if entryId in auditTrail {
            entries := entries + [auditTrail[entryId]];
          }
        }
        i := i + 1;
      }
      return Some(entries);
    }
  }

  function Query(s: State, a: AccountId, offset: u64, limit: u64): Option<seq<AuditEntry>> {
    if offset + limit > U64_MAX then None
    else Some(Found(s, a, offset, Min(offset + limit, GetOr(s.perAccount, a, 0))))
  }

  // ----- runs ------------------------------------------------------------------------------

  /** The trail after a history of recorded actions, none of which found its counters exhausted. */
  function After(history: seq<Record>): Option<State> {
    if history == [] then Some(EMPTY)
    else
      var s := After(history[..|history| - 1]);
      if s.None? then None else Add(s.value, history[|history| - 1])
  }

  /** The ids, from one, of the recorded actions that name an account. */
  function IdsOf(history: seq<Record>, a: AccountId): seq<nat> {
    if history == [] then []
    else
      var n := |history| - 1;
      IdsOf(history[..n], a) + if history[n].account == a then [n + 1] else []
  }

  /** The list is strictly increasing, and holds exactly the ids whose entry names the account. */
  ghost predicate ExactIds(ids: seq<nat>, history: seq<Record>, a: AccountId) {
    && (forall i, j :: 0 <= i < j < |ids| ==> ids[i] < ids[j])
    && (forall id :: id in ids <==> 1 <= id <= |history| && history[id - 1].account == a)
    && |ids| <= |history|
  }

  lemma ExactOneMore(ids: seq<nat>, history: seq<Record>, r: Record, a: AccountId)
    requires ExactIds(ids, history, a)
    ensures ExactIds(ids + if r.account == a then [|history| + 1] else [], history + [r], a)
  {
    var longer := history + [r];
    assert forall i :: 0 <= i < |history| ==> longer[i] == history[i];
    assert longer[|history|] == r;
    if r.account == a {
      NewestLast(ids, |history| + 1);
    } else {
      assert ids + [] == ids;
    }
  }

  lemma NewestLast(ids: seq<nat>, id: nat)
    requires forall i, j :: 0 <= i < j < |ids| ==> ids[i] < ids[j]
    requires forall x :: x in ids ==> x < id
    ensures forall i, j :: 0 <= i < j < |ids + [id]| ==> (ids + [id])[i] < (ids + [id])[j]
    ensures forall x :: x in ids + [id] <==> x in ids || x == id
  {
    forall i | 0 <= i < |ids| ensures ids[i] < id {
      assert ids[i] in ids;
    }
  }

  /** The ids are in strictly increasing order, and are exactly those whose entry names the account. */
  lemma {:induction false} IdsAreExact(history: seq<Record>, a: AccountId)
    ensures ExactIds(IdsOf(history, a), history, a)
  {
    if history == [] {
    } else {
      var n := |history| - 1;
      IdsAreExact(history[..n], a);
      ExactOneMore(IdsOf(history[..n], a), history[..n], history[n], a);
      assert history == history[..n] + [history[n]];
    }
  }

  ghost function CountOf(): (AccountId, u64) -> int {
    (a: AccountId, n: u64) => n
  }

  /** The trail holds the history, and the index of an account lists its ids. */
  ghost predicate TrailOk(s: State, history: seq<Record>) {
    && s.count == |history|
    && (forall id :: id in s.trail <==> 1 <= id <= |history|)
    && (forall id :: id in s.trail ==> s.trail[id] == EntryOf(history[id - 1], id))
    && SumOf(s.perAccount, CountOf()) == s.count
  }

  ghost predicate Indexed(s: State, history: seq<Record>, a: AccountId) {
    var ids := IdsOf(history, a);
    && GetOr(s.perAccount, a, 0) == |ids|
    && (forall i :: 0 <= i < |ids| ==> (a, i) in s.index && s.index[(a, i)] == ids[i])
  }

  lemma AddKeepsIndex(s: State, history: seq<Record>, r: Record, a: AccountId)
    requires TrailOk(s, history) && Indexed(s, history, a) && Add(s, r).Some?
    requires r.account == a || Indexed(s, history, r.account)
    ensures Indexed(Add(s, r).value, history + [r], a)
  {
    assert (history + [r])[..|history|] == history;
  }

  lemma AddKeepsTrail(s: State, history: seq<Record>, r: Record)
    requires TrailOk(s, history) && Add(s, r).Some?
    ensures TrailOk(Add(s, r).value, history + [r])
  {
    Insert(s.perAccount, CountOf(), r.account, Add(s, r).value.perAccount[r.account]);
  }

  /** After any history the trail holds it, every account's index lists exactly its ids in order,
      and the accounts' counts sum to the global one. */
  lemma {:induction false} IndexAgreesWithTrail(history: seq<Record>)
    requires After(history).Some?
    ensures TrailOk(After(history).value, history)
    ensures forall a: AccountId :: Indexed(After(history).value, history, a)
  {
    if history == [] {
    } else {
      var n := |history| - 1;
      var s := After(history[..n]).value;
      IndexAgreesWithTrail(history[..n]);
      assert history == history[..n] + [history[n]];
      AddKeepsTrail(s, history[..n], history[n]);
      forall a: AccountId ensures Indexed(After(history).value, history, a) {
        AddKeepsIndex(s, history[..n], history[n], a);
      }
    }
  }

  /** The account's own part of the trail. */
  function Filtered(history: seq<Record>, a: AccountId): (f: seq<AuditEntry>)
    requires |history| <= U64_MAX
    ensures |f| == |IdsOf(history, a)|
  {
    if history == [] then []
    else
      var n := |history| - 1;
      Filtered(history[..n], a) + if history[n].account == a then [EntryOf(history[n], n + 1)] else []
  }

  lemma {:induction false} FilteredByIds(history: seq<Record>, a: AccountId, i: nat)
    requires |history| <= U64_MAX && i < |IdsOf(history, a)|
    ensures var id := IdsOf(history, a)[i];
      1 <= id <= |history| && Filtered(history, a)[i] == EntryOf(history[id - 1], id)
  {
    var n := |history| - 1;
    if i < |IdsOf(history[..n], a)| {
      FilteredByIds(history[..n], a, i);
    }
  }

  function Slice<T>(list: seq<T>, offset: nat, limit: nat): seq<T> {
    if offset >= |list| then [] else list[offset..Min(offset + limit, |list|)]
  }

  lemma {:induction false} FoundIsFiltered(s: State, history: seq<Record>, a: AccountId, i: u64, end: u64)
    requires TrailOk(s, history) && Indexed(s, history, a)
    requires i <= end <= |IdsOf(history, a)|
    ensures Found(s, a, i, end) == Filtered(history, a)[i..end]
    decreases end - i
  {
    if i == end {
    } else {
      FoundIsFiltered(s, history, a, i, end - 1);
      FilteredByIds(history, a, end - 1);
      assert Filtered(history, a)[i..end] == Filtered(history, a)[i..end - 1] + [Filtered(history, a)[end - 1]];
    }
  }

  lemma OwnCountWithin(s: State, history: seq<Record>, a: AccountId)
    requires TrailOk(s, history)
    ensures GetOr(s.perAccount, a, 0) <= |history|
  {
    if a in s.perAccount {
      Dominates(s.perAccount, CountOf(), a);
    }
  }

  /** Every history that the global counter can number is recorded in full, and no longer one: an
      account's own counter never gives out first. */
  lemma {:induction false} RecordsExactly(history: seq<Record>)
    ensures After(history).Some? <==> |history| <= U64_MAX
  {
    if history == [] {
    } else {
      var n := |history| - 1;
      RecordsExactly(history[..n]);
      if After(history[..n]).Some? {
        IndexAgreesWithTrail(history[..n]);
        OwnCountWithin(After(history[..n]).value, history[..n], history[n].account);
      }
    }
  }

  /** A query returns exactly the requested slice of the account's part of the trail, and fails exactly
      if the end of that slice cannot be computed. */
  lemma QueriesSlice(history: seq<Record>, a: AccountId, offset: u64, limit: u64)
    requires |history| <= U64_MAX
    ensures After(history).Some?
    ensures Query(After(history).value, a, offset, limit) ==
      if offset + limit <= U64_MAX then Some(Slice(Filtered(history, a), offset, limit)) else None
  {
    RecordsExactly(history);
    var s := After(history).value;
    IndexAgreesWithTrail(history);
    assert Indexed(s, history, a);
    var count := GetOr(s.perAccount, a, 0);
    if offset + limit <= U64_MAX && offset < count {
      FoundIsFiltered(s, history, a, offset, Min(offset + limit, count));
    }
  }
}
