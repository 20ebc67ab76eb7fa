/** internal/b4b/payment.go and the engine half of state.go: the payout walk and its restart. */
module Payout {
  import opened Text
  import opened Sorting
  import opened Snapshots

  datatype PaymentState =
    | Accepted | SanctionsPending | SanctionsApproved | TMPending | TMApproved | Failed
    | Unlisted(text: string)

  const STATE_ORDER: seq<PaymentState> := [Accepted, SanctionsPending, SanctionsApproved, TMPending]

  /** remainingStates: None is the nil that says there is nothing to resume. */
  function RemainingStates(from: PaymentState): Option<seq<PaymentState>> {
    match from
    case Accepted => Some(STATE_ORDER[1..])
    case SanctionsPending => Some(STATE_ORDER[2..])
    case SanctionsApproved => Some(STATE_ORDER[3..])
    case TMPending => Some([])
    case _ => None
  }

  function Terminal(forceFail: bool): PaymentState {
    if forceFail then Failed else TMApproved
  }

  /** What process goes through from a state on. */
  function Walk(from: PaymentState, forceFail: bool): seq<PaymentState> {
    (if RemainingStates(from).Some? then RemainingStates(from).value else []) + [Terminal(forceFail)]
  }

  /** The walk nothing interrupts, Submit's first state included. */
  function FullWalk(forceFail: bool): seq<PaymentState> {
    STATE_ORDER + [Terminal(forceFail)]
  }

  /** What Restore makes a payment in this state still go through. */
  function Resumed(from: PaymentState, forceFail: bool): seq<PaymentState> {
    if RemainingStates(from).Some? then Walk(from, forceFail) else []
  }

  /** Wherever the walk stopped, what was reached and what is resumed make the whole walk. */
  lemma ResumeCompletes(forceFail: bool, k: nat)
    requires k < |FullWalk(forceFail)|
    ensures FullWalk(forceFail)[..k + 1] + Resumed(FullWalk(forceFail)[k], forceFail) == FullWalk(forceFail)
    ensures Resumed(FullWalk(forceFail)[k], forceFail) == [] <==> k == |FullWalk(forceFail)| - 1
    ensures FullWalk(forceFail) ==
      [Accepted, SanctionsPending, SanctionsApproved, TMPending, if forceFail then Failed else TMApproved]
  {
    var f := FullWalk(forceFail);
    assert f == [Accepted, SanctionsPending, SanctionsApproved, TMPending, Terminal(forceFail)];
    assert k == 0 || k == 1 || k == 2 || k == 3 || k == 4;
  }

  // ------------------------------------------------------------------ class

  /** A copy of a payment, as onTransition and Snapshot take them. */
  datatype Record = Record(id: string, forceFail: bool, state: PaymentState, createdAt: string, updatedAt: string)

  class Payment {
    const id: string
    const forceFail: bool
    var state: PaymentState
    var createdAt: string
    var updatedAt: string

    constructor (r: Record)
      ensures Copy() == r
    {
      id, forceFail, state, createdAt, updatedAt := r.id, r.forceFail, r.state, r.createdAt, r.updatedAt;
    }

    function Copy(): Record
      reads this
    {
      Record(id, forceFail, state, createdAt, updatedAt)
    }
  }

  ghost function Copies(payments: map<string, Payment>): map<string, Record>
    reads payments.Values
  {
    map id | id in payments :: payments[id].Copy()
  }

  ghost function CopiesOf(s: seq<Payment>): seq<Record>
    reads s
  {
    seq(|s|, i requires 0 <= i < |s| reads s => s[i].Copy())
  }

  /** The states told of, in order. */
  function StatesOf(records: seq<Record>): seq<PaymentState> {
    seq(|records|, i requires 0 <= i < |records| => records[i].state)
  }

  ghost predicate AllOf(records: seq<Record>, p: Payment) {
    forall i :: 0 <= i < |records| ==> records[i].id == p.id && records[i].forceFail == p.forceFail
  }

  class Engine {
    var payments: map<string, Payment>
    /** What onTransition was handed. */
    var told: seq<Record>

    constructor ()
      ensures payments == map[] && told == []
    {
      payments, told := map[], [];
    }

    method Notify(r: Record)
      modifies this`told
      ensures told == old(told) + [r]
    {
      told := told + [r];
    }

    /** Submit up to the start of the walk. */
    method Submit(p: Payment, ts: string)
      modifies this, p
      ensures p.Copy() == Record(p.id, p.forceFail, Accepted, ts, ts)
      ensures payments == old(payments)[p.id := p]
      ensures told == old(told) + [p.Copy()]
    {
      p.state := Accepted;
      p.createdAt := ts;
      p.updatedAt := ts;
      payments := payments[p.id := p];
      Notify(p.Copy());
    }

    /** clock reads the time at each hop. */
    method Process(p: Payment, clock: nat -> string)
      modifies this`told, p`state, p`updatedAt
      ensures p.state == Terminal(p.forceFail)
      ensures |told| >= |old(told)| && told[..|old(told)|] == old(told)
      ensures StatesOf(told[|old(told)|..]) == Walk(old(p.state), p.forceFail)
      ensures AllOf(told[|old(told)|..], p)
    {
      hide RemainingStates;
      var n := |told|;
      var rest := RemainingStates(p.state);
      var todo := if rest.Some? then rest.value else [];
      for i := 0 to |todo|
        invariant |told| == n + i && told[..n] == old(told)
        invariant StatesOf(told[n..]) == todo[..i]
        invariant AllOf(told[n..], p)
      {
        p.state := todo[i];
        p.updatedAt := clock(i);
        ghost var before := told;
        Notify(p.Copy());
        assert told[n..] == before[n..] + [p.Copy()];
        assert todo[..i + 1] == todo[..i] + [todo[i]];
      }
      assert todo[..|todo|] == todo;
      if p.forceFail {
        p.state := Failed;
      } else {
        p.state := TMApproved;
      }
      p.updatedAt := clock(|todo|);
      ghost var before := told;
      Notify(p.Copy());
      assert told[n..] == before[n..] + [p.Copy()];
    }

    /** What the payments map says, by value. */
    ghost function View(): map<string, Record>
      reads this, payments.Values
    {
      Copies(payments)
    }

    /** r is a payment's copy, and that payment is not still to come. */
    ghost predicate Taken(r: Record, rest: set<string>)
      reads this, payments.Values
    {
      r.id in payments && r.id !in rest && payments[r.id].Copy() == r
    }

    method Snapshot() returns (s: seq<Record>)
      requires forall id :: id in payments ==> payments[id].id == id
      ensures Lists(View(), s, RecordId) && Sorted(s, ByKey(RecordKey))
      ensures forall i, j :: 0 <= i < j < |s| ==> AtMost(s[i].createdAt + s[i].id, s[j].createdAt + s[j].id)
    {
      var found: seq<Record> := [];
      var rest := payments.Keys;
      while rest != {}
        invariant rest <= payments.Keys
        invariant forall r :: multiset(found)[r] == if Taken(r, rest) then 1 else 0
      {
        var id :| id in rest;
        found := found + [payments[id].Copy()];
        rest := rest - {id};
      }
      s := Arranged(found, RecordKey);
      ArrangedSorted(found, RecordKey);
      assert multiset(s) == multiset(found);
      assert forall i, j :: 0 <= i < j < |s| ==> ByKey(RecordKey)(s[i], s[j]);
    }

    /** The payments to walk on are returned, in the order of the file. */
    method Restore(s: seq<Payment>) returns (resumable: seq<Payment>)
      modifies this`payments
      ensures payments == Filed(old(payments), s, PaymentId)
      ensures resumable == Resumable(s)
    {
      resumable := [];
      for i := 0 to |s|
        invariant payments == Filed(old(payments), s[..i], PaymentId)
        invariant resumable == Resumable(s[..i])
      {
        payments := payments[s[i].id := s[i]];
        if RemainingStates(s[i].state).Some? {
          resumable := resumable + [s[i]];
        }
        assert s[..i + 1][..i] == s[..i];
      }
      assert s[..|s|] == s;
    }
  }

  function PaymentId(p: Payment): string { p.id }

  /** The payments whose walk is not over. */
  function Resumable(s: seq<Payment>): seq<Payment>
    reads s
  {
    if s == [] then []
    else
      Resumable(s[..|s| - 1]) +
      if RemainingStates(s[|s| - 1].state).Some? then [s[|s| - 1]] else []
  }

  function RecordId(r: Record): string { r.id }

  function RecordKey(r: Record): string { r.createdAt + r.id }

  /** The copies of the restored map are what filing the file's records makes. */
  lemma {:induction false} RestoredByValue(payments: map<string, Payment>, s: seq<Payment>)
    ensures Copies(Filed(payments, s, PaymentId)) == Filed(Copies(payments), CopiesOf(s), RecordId)
  {
    if s != [] {
      var n := |s| - 1;
      RestoredByValue(payments, s[..n]);
      assert CopiesOf(s)[..n] == CopiesOf(s[..n]);
      var m := Filed(payments, s[..n], PaymentId);
      assert Copies(m[s[n].id := s[n]]) == Copies(m)[s[n].id := s[n].Copy()];
    }
  }

  /** Into a new engine, a snapshot's payments come back as they were, and exactly the unfinished ones walk on. */
  lemma RestoreOfSnapshot(was: map<string, Record>, s: seq<Payment>)
    requires KeyedBy(was, RecordId) && Lists(was, CopiesOf(s), RecordId)
    ensures Copies(Filed(map[], s, PaymentId)) == was
    ensures forall p :: p in Resumable(s) <==> p in s && RemainingStates(p.state).Some?
  {
    RestoredByValue(map[], s);
    assert Copies(map[]) == map[];
    FiledRebuilds(was, CopiesOf(s), RecordId);
    ResumableMembers(s);
  }

  lemma {:induction false} ResumableMembers(s: seq<Payment>)
    ensures forall p :: p in Resumable(s) <==> p in s && RemainingStates(p.state).Some?
  {
    if s != [] {
      ResumableMembers(s[..|s| - 1]);
      assert s == s[..|s| - 1] + [s[|s| - 1]];
    }
  }
}
