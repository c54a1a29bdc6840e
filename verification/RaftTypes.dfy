/**
 Values shared by the key/value service and the consensus layer: the commands
 a client may issue, log entries, roles, and majorities of peers.
 */
module RaftTypes {
  import opened Collections

  /** A client command (kvraft Op).  `kind` is "Get", "Put", "Append" or "Delete". */
  datatype Op = Op(kind: string, key: string, value: string, seqId: int, clientId: int)

  /** The command slot of a log entry.  Only sentinels hold `Nil`. */
  datatype Command = Nil | Cmd(op: Op)

  datatype LogEntry = LogEntry(term: nat, command: Command)

  type Log = seq<LogEntry>

  datatype Role = Leader | Candidate | Follower

  /** Log indices start at 1; index 0 stands for the empty log and has term 0. */
  function TermAt(log: Log, index: nat): nat
    requires index <= |log|
  {
    if index == 0 then 0 else log[index - 1].term
  }

  function LastTerm(log: Log): nat {
    TermAt(log, |log|)
  }

  /** A set of peers big enough for `count > len(peers)/2`. */
  predicate Majority(n: nat, s: set<nat>) {
    (forall p :: p in s ==> p < n) && |s| > n / 2
  }

  function Min(a: nat, b: nat): nat { if a < b then a else b }

  function Max(a: nat, b: nat): nat { if a > b then a else b }

  /** Two majorities of the same cluster have a common member. */
  lemma MajoritiesMeet(n: nat, a: set<nat>, b: set<nat>) returns (p: nat)
    requires Majority(n, a) && Majority(n, b)
    ensures p in a && p in b && p < n
  {
    SubsetSize(a + b, Below(n));
    assert |a + b| == |a| + |b| - |a * b|;
    p :| p in a * b;
  }

  /** Two prefixes of one sequence are comparable. */
  lemma PrefixesCompare<T>(a: seq<T>, b: seq<T>, c: seq<T>)
    requires a <= c && b <= c
    ensures |a| <= |b| ==> a <= b
    ensures |b| <= |a| ==> b <= a
  {
  }
}
