/** The admin audit log kept by access_control, treasury and risk_registry: a 500-slot ring
    read newest first in pages (contracts/shared/src/audit.rs, and the same two functions in
    each of the three contracts). */
module AuditLog {
  type Address = nat

  const MAX_AUDIT_LOG_SIZE: nat := 500

  datatype AuditSource = FromAccessControl | FromTreasury | FromRiskRegistry

  datatype ActionType =
    | Pause | Unpause | GrantRole | RevokeRole | TransferAdmin | ConfigureMultisig
    | ProposeUpgrade | ExecuteUpgrade | MultisigExecuteAction | ProposeParameter | ExecuteParameter
    | SetFeeBps | WhitelistToken | Withdraw | EmergencyWithdraw
    | ProposeWithdrawalCap | ExecuteWithdrawalCap | TreasuryProposeUpgrade | TreasuryExecuteUpgrade
    | AddVerifier | RemoveVerifier | RecordDefault
    | RegistryTransferAdmin | RegistryProposeUpgrade | RegistryExecuteUpgrade

  datatype Entry = Entry(sequence: nat, timestamp: nat, actor: Address, action: ActionType, source: AuditSource)

  type History = seq<Entry>

  function Min(a: nat, b: nat): nat {
    if a <= b then a else b
  }

  /** The entries still readable: the last 500 of the whole history, newest first. */
  function Newest(h: History): History {
    seq(Min(|h|, MAX_AUDIT_LOG_SIZE), k requires 0 <= k < Min(|h|, MAX_AUDIT_LOG_SIZE) => h[|h| - 1 - k])
  }

  /** Page sizes are clamped to 1..50. */
  function PageSize(requested: nat): nat {
    if requested < 1 then 1 else if requested > 50 then 50 else requested
  }

  function PageOf(h: History, page: nat, size: nat): History
    requires size >= 1
  {
    var newest := Newest(h);
    newest[Min(page * size, |newest|)..Min((page + 1) * size, |newest|)]
  }

  class AuditLog {
    const source: AuditSource
    var head: nat
    var total: nat
    var entries: map<nat, Entry>
    /** Every entry ever appended. */
    ghost var history: History

    ghost predicate Valid()
      reads this
    {
      && total == |history|
      && head == total % MAX_AUDIT_LOG_SIZE
      && (forall i | 0 <= i < |history| && |history| - MAX_AUDIT_LOG_SIZE <= i ::
            i % MAX_AUDIT_LOG_SIZE in entries && entries[i % MAX_AUDIT_LOG_SIZE] == history[i])
      && (forall i | 0 <= i < |history| :: history[i].sequence == i && history[i].source == source)
    }

    constructor (source: AuditSource)
      ensures Valid() && history == [] && this.source == source
    {
      this.source := source;
      head, total, entries, history := 0, 0, map[], [];
    }

    method Append(now: nat, actor: Address, action: ActionType)
      requires Valid()
      modifies this
      ensures Valid()
      ensures history == old(history) + [Entry(|old(history)|, now, actor, action, source)]
    {
      var entry := Entry(total, now, actor, action, source);
      SlotsDiffer(total);
      entries := entries[head := entry];
      head := (head + 1) % MAX_AUDIT_LOG_SIZE;
      total := total + 1;
      history := history + [entry];
    }

    /** Exactly an invocation that commits leaves an entry. */
    twostate predicate Recorded(committed: bool, now: nat, actor: Address, action: ActionType)
      reads this
    {
      && Valid()
      && history == old(history) +
           if committed then [Entry(|old(history)|, now, actor, action, source)] else []
    }

    /** The page the ring yields is the slice of the unbounded history it stands for. */
    method GetAuditLog(page: nat, requested: nat) returns (results: seq<Entry>)
      requires Valid()
      ensures results == PageOf(history, page, PageSize(requested))
    {
      var pageSize := PageSize(requested);
      var stored := Min(total, MAX_AUDIT_LOG_SIZE);
      var skip := page * pageSize;
      results := [];
      var i := 0;
      while i < pageSize
        invariant 0 <= i <= pageSize
        invariant Min(skip, stored) <= Min(skip + i, stored)
        invariant results == Newest(history)[Min(skip, stored)..Min(skip + i, stored)]
      {
        var offset := skip + i;
        if offset >= stored { break; }
        SlotOf(total, offset);
        var pos := (head + MAX_AUDIT_LOG_SIZE - 1 - offset) % MAX_AUDIT_LOG_SIZE;
        if pos in entries {
          results := results + [entries[pos]];
        }
        i := i + 1;
      }
    }
  }

  /** The slot written next is not the slot of any entry that stays readable. */
  lemma SlotsDiffer(total: nat)
    ensures forall i | 0 <= i < total && total + 1 - MAX_AUDIT_LOG_SIZE <= i ::
              i % MAX_AUDIT_LOG_SIZE != total % MAX_AUDIT_LOG_SIZE
    ensures (total + 1) % MAX_AUDIT_LOG_SIZE == (total % MAX_AUDIT_LOG_SIZE + 1) % MAX_AUDIT_LOG_SIZE
  {
  }

  /** Walking back `offset` slots from the last written one reaches that entry's slot. */
  lemma SlotOf(total: nat, offset: nat)
    requires offset < total && offset < MAX_AUDIT_LOG_SIZE
    ensures (total % MAX_AUDIT_LOG_SIZE + MAX_AUDIT_LOG_SIZE - 1 - offset) % MAX_AUDIT_LOG_SIZE
         == (total - 1 - offset) % MAX_AUDIT_LOG_SIZE
  {
  }

  // ── Pages tile the readable history ────────────────────────────────────────

  ghost function FirstPages(h: History, n: nat, size: nat): History
    requires size >= 1
  {
    if n == 0 then [] else FirstPages(h, n - 1, size) + PageOf(h, n - 1, size)
  }

  lemma {:induction false} PagesTile(h: History, n: nat, size: nat)
    requires size >= 1
    ensures FirstPages(h, n, size) == Newest(h)[..Min(n * size, |Newest(h)|)]
  {
    if n > 0 {
      PagesTile(h, n - 1, size);
      assert (n - 1) * size + size == n * size;
    }
  }

  /** Reading pages in order, for any page size, yields the last 500 entries newest first,
      with no gap and no repeat, and nothing after them. */
  lemma PagesCover(h: History, n: nat, size: nat)
    requires size >= 1 && n * size >= |Newest(h)|
    ensures FirstPages(h, n, size) == Newest(h)
    ensures PageOf(h, n, size) == []
    ensures |Newest(h)| == Min(|h|, MAX_AUDIT_LOG_SIZE)
    ensures forall k | 0 <= k < |Newest(h)| :: FirstPages(h, n, size)[k] == h[|h| - 1 - k]
  {
    PagesTile(h, n, size);
    assert (n + 1) * size == n * size + size;
  }

  /** A page never holds more than 50 entries, and while there are enough it holds as many as
      were asked for, if that is between 1 and 50. */
  lemma PagesAsAsked(h: History, page: nat, requested: nat)
    ensures |PageOf(h, page, PageSize(requested))| <= 50
    ensures 1 <= requested <= 50 && (page + 1) * requested <= |Newest(h)| ==>
              |PageOf(h, page, PageSize(requested))| == requested
    ensures page == 0 && Newest(h) != [] ==> PageOf(h, page, PageSize(requested)) != []
    ensures page == 0 && requested >= 50 && |Newest(h)| >= 50 ==> |PageOf(h, page, PageSize(requested))| == 50
  {
    assert (page + 1) * PageSize(requested) == page * PageSize(requested) + PageSize(requested);
  }

  /** Appending shifts the readable history by one and drops the oldest of 500. */
  lemma AppendShifts(h: History, e: Entry)
    ensures Newest(h + [e]) == [e] + Newest(h)[..Min(|Newest(h)|, MAX_AUDIT_LOG_SIZE - 1)]
  {
  }
}
