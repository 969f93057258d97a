/**
 The server's log as the client sees it: an append-only list of the changes visible
 to the device. Sequences start at one and increase, rows never change, an operation
 is logged once (apps/api/migrations/versions/0009_sync_ledger.py:189-245), and digests
 are those of the bodies.
 */
module ServerLog {
  import opened Types
  import opened Runs
  import Pull

  /** The kinds of entity that have no stored document beside them. */
  predicate Plain(k: Key) {
    OrdinaryType(k.kind) && !k.kind.Note?
  }

  ghost predicate LogOk(log: seq<Change>, head: nat) {
    && (forall i, j | 0 <= i < j < |log| :: log[i].sequence < log[j].sequence && log[i].op != log[j].op)
    && (forall i | 0 <= i < |log| :: 1 <= log[i].sequence <= head && log[i].payloadHash == Sha(log[i].payload))
  }

  /** The log has the operation, at or below a cursor. */
  ghost predicate Logged(log: seq<Change>, op: OpId, cursor: nat) {
    exists ch :: ch in log && ch.op == op && ch.sequence <= cursor
  }

  /** The last change to an entity at or below a cursor. */
  function Last(log: seq<Change>, k: Key, cursor: nat): Option<Change> {
    if log == [] then None
    else
      var ch := log[|log| - 1];
      if ch.key == k && ch.sequence <= cursor then Some(ch) else Last(log[..|log| - 1], k, cursor)
  }

  predicate AcksPassed(history: map<OpId, Entry>, k: Key, cursor: nat) {
    forall id | id in history :: history[id].fate.Acknowledged? && history[id].fate.key == k ==> history[id].fate.sequence <= cursor
  }

  /** Acknowledgements name a place in the log. */
  ghost predicate AcksLogged(history: map<OpId, Entry>, log: seq<Change>) {
    forall id | id in history && history[id].fate.Acknowledged? ::
      exists ch :: ch in log && ch.sequence == history[id].fate.sequence && ch.key == history[id].fate.key
  }

  lemma {:induction false} LastIs(log: seq<Change>, head: nat, k: Key, cursor: nat)
    requires LogOk(log, head)
    ensures Last(log, k, cursor).Some? ==>
              var ch := Last(log, k, cursor).value;
              ch in log && ch.key == k && ch.sequence <= cursor
    ensures forall ch | ch in log && ch.key == k && ch.sequence <= cursor ::
              Last(log, k, cursor).Some? && ch.sequence <= Last(log, k, cursor).value.sequence
  {
    if log != [] {
      LastIs(log[..|log| - 1], head, k, cursor);
      assert forall ch | ch in log :: ch in log[..|log| - 1] || ch == log[|log| - 1];
    }
  }

  lemma LastUnique(log: seq<Change>, head: nat, a: Change, b: Change)
    requires LogOk(log, head) && a in log && b in log && (a.sequence == b.sequence || a.op == b.op)
    ensures a == b
  {
  }

  /** Moving the cursor over changes to other entities changes nothing. */
  lemma LastKept(log: seq<Change>, head: nat, k: Key, from: nat, next: nat)
    requires LogOk(log, head) && from <= next
    requires forall ch | ch in log && from < ch.sequence <= next :: ch.key != k
    ensures Last(log, k, next) == Last(log, k, from)
  {
    LastIs(log, head, k, from);
    LastIs(log, head, k, next);
    if Last(log, k, next).Some? {
      LastUnique(log, head, Last(log, k, next).value, Last(log, k, from).value);
    }
  }

  lemma LastMoves(log: seq<Change>, head: nat, ch: Change)
    requires LogOk(log, head) && ch in log
    ensures Last(log, ch.key, ch.sequence) == Some(ch)
  {
    LastIs(log, head, ch.key, ch.sequence);
    LastUnique(log, head, ch, Last(log, ch.key, ch.sequence).value);
  }

  /** The next change of the log after the cursor. */
  ghost predicate NextInLog(log: seq<Change>, cursor: nat, ch: Change) {
    && ch in log && cursor < ch.sequence
    && forall other | other in log && cursor < other.sequence <= ch.sequence :: other == ch
  }

  /** Moving the cursor over changes to other entities passes no acknowledgement. */
  lemma PassedBefore(history: map<OpId, Entry>, log: seq<Change>, from: nat, next: nat, k: Key)
    requires AcksLogged(history, log) && AcksPassed(history, k, next)
    requires forall ch | ch in log && from < ch.sequence <= next :: ch.key != k
    ensures AcksPassed(history, k, from)
  {
    forall id | id in history && history[id].fate.Acknowledged? && history[id].fate.key == k
      ensures history[id].fate.sequence <= from
    {
      var ch :| ch in log && ch.sequence == history[id].fate.sequence && ch.key == history[id].fate.key;
    }
  }

  /** A page holds the changes of the log in (from, next], in order. */
  ghost predicate IsWindow(log: seq<Change>, from: nat, next: nat, changes: seq<Change>) {
    && Pull.InSequence(from, next, changes)
    && forall ch :: ch in changes <==> ch in log && from < ch.sequence <= next
  }

  function Mid(from: nat, changes: seq<Change>): nat {
    if |changes| <= 1 then from else changes[|changes| - 2].sequence
  }

  lemma WindowFront(log: seq<Change>, from: nat, next: nat, changes: seq<Change>)
    requires IsWindow(log, from, next, changes) && changes != []
    ensures IsWindow(log, from, Mid(from, changes), changes[..|changes| - 1])
  {
    var n, mid := |changes| - 1, Mid(from, changes);
    forall ch | ch in log && from < ch.sequence <= mid
      ensures ch in changes[..n]
    {
      var i :| 0 <= i < |changes| && changes[i] == ch;
      assert changes[..n][i] == ch;
    }
    forall i | 0 <= i < n
      ensures changes[..n][i] in changes && changes[..n][i].sequence <= mid
    {
      assert changes[..n][i] == changes[i];
    }
  }

  lemma {:induction false} WindowLast(log: seq<Change>, from: nat, next: nat, changes: seq<Change>)
    requires IsWindow(log, from, next, changes) && changes != []
    ensures NextInLog(log, Mid(from, changes), changes[|changes| - 1])
    ensures forall ch | ch in log :: !(changes[|changes| - 1].sequence < ch.sequence <= next)
  {
    var last := changes[|changes| - 1];
    assert last in changes;
    forall other | other in log && Mid(from, changes) < other.sequence <= next
      ensures other == last
    {
      var i :| 0 <= i < |changes| && changes[i] == other;
    }
  }
}
