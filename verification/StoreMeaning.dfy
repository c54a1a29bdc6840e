/**
 What the store holds after a log of commands, and what each command is told,
 said of places in the log alone: which command wrote a key last, which
 appends came after it, which delete came after those.
 */
module StoreMeaning {
  import opened Collections
  import opened RaftTypes
  import opened KvMachine

  /** The `i`th command takes effect on `key` and is of the kind named. */
  predicate Does(log: seq<Op>, i: nat, key: string, kind: string)
    requires i < |log|
  {
    TakesEffect(log, i) && log[i].key == key && log[i].kind == kind
  }

  predicate Writes(log: seq<Op>, i: nat, key: string)
    requires i < |log|
  {
    Does(log, i, key, "Put") || Does(log, i, key, "Append")
  }

  /** What the key held before the `i`th command no longer matters after it. */
  predicate Resets(log: seq<Op>, i: nat, key: string)
    requires i < |log|
  {
    Does(log, i, key, "Put") || Does(log, i, key, "Delete")
  }

  /** Before the `k`th command, some write to the key has no delete of it after it. */
  ghost predicate Present(log: seq<Op>, key: string, k: nat)
    requires k <= |log|
  {
    exists i :: 0 <= i < k && Writes(log, i, key) && forall j :: i < j < k ==> !Does(log, j, key, "Delete")
  }

  /** Before the `k`th command, `p` is just past the last put or delete of the key, or the start. */
  ghost predicate LastReset(log: seq<Op>, key: string, k: nat, p: nat)
    requires k <= |log|
  {
    p <= k && (p > 0 ==> Resets(log, p - 1, key)) && forall j :: p <= j < k ==> !Resets(log, j, key)
  }

  /** What the appends to the key from place `p` up to `k` come to. */
  function Appended(log: seq<Op>, key: string, p: nat, k: nat): string
    requires p <= k <= |log|
    decreases k
  {
    if p == k then ""
    else Appended(log, key, p, k - 1) + if Does(log, k - 1, key, "Append") then log[k - 1].value else ""
  }

  /** The value of the put just before `p`, if it is one, and the appends since. */
  function ValueSince(log: seq<Op>, key: string, p: nat, k: nat): string
    requires p <= k <= |log|
  {
    (if p > 0 && Does(log, p - 1, key, "Put") then log[p - 1].value else "") + Appended(log, key, p, k)
  }

  lemma {:induction false} LastResetExists(log: seq<Op>, key: string, k: nat) returns (p: nat)
    requires k <= |log|
    ensures LastReset(log, key, k, p)
  {
    if k == 0 || Resets(log, k - 1, key) {
      p := k;
    } else {
      p := LastResetExists(log, key, k - 1);
    }
  }

  /** A key is in the store exactly if some effective put or append of it has no effective delete after it. */
  lemma {:induction false} KeyPresent(log: seq<Op>, key: string, k: nat)
    requires k <= |log|
    ensures key in Fold(log[..k]).kvStore <==> Present(log, key, k)
  {
    if k == 0 {
      assert log[..0] == [];
    } else {
      var last := k - 1;
      FoldNext(log, last);
      KeyPresent(log, key, last);
      PresentNext(log, key, last);
    }
  }

  lemma PresentNext(log: seq<Op>, key: string, k: nat)
    requires k < |log|
    ensures Present(log, key, k + 1) <==>
      Writes(log, k, key) || (Present(log, key, k) && !Does(log, k, key, "Delete"))
  {
    if Present(log, key, k) && !Does(log, k, key, "Delete") {
      var i :| 0 <= i < k && Writes(log, i, key) && forall j :: i < j < k ==> !Does(log, j, key, "Delete");
      assert forall j :: i < j < k + 1 ==> !Does(log, j, key, "Delete");
    }
  }

  /**
   The value of a key: that of the last effective put since its last effective
   delete followed by the effective appends since, or those appends alone.
   */
  lemma {:induction false} KeyValue(log: seq<Op>, key: string, k: nat, p: nat)
    requires k <= |log| && LastReset(log, key, k, p)
    ensures Lookup(Fold(log[..k]).kvStore, key) == ValueSince(log, key, p, k)
    decreases k
  {
    if k == 0 {
      assert log[..0] == [];
    } else {
      var last := k - 1;
      FoldNext(log, last);
      if p < k {
        assert !Resets(log, last, key);
        KeyValue(log, key, last, p);
        ValueNext(log, key, p, last);
      }
    }
  }

  lemma ValueNext(log: seq<Op>, key: string, p: nat, k: nat)
    requires p <= k < |log|
    ensures ValueSince(log, key, p, k + 1) ==
      if Does(log, k, key, "Append") then ValueSince(log, key, p, k) + log[k].value else ValueSince(log, key, p, k)
  {
    var put := if p > 0 && Does(log, p - 1, key, "Put") then log[p - 1].value else "";
    var more := if Does(log, k, key, "Append") then log[k].value else "";
    assert put + (Appended(log, key, p, k) + more) == (put + Appended(log, key, p, k)) + more;
  }

  /** What the store holds after a whole log. */
  lemma StoreMeans(log: seq<Op>, key: string)
    ensures var store := Fold(log).kvStore;
      && (key in store <==> Present(log, key, |log|))
      && (exists p: nat :: LastReset(log, key, |log|, p))
      && (forall p: nat :: LastReset(log, key, |log|, p) && key in store ==> store[key] == ValueSince(log, key, p, |log|))
  {
    assert log[..|log|] == log;
    KeyPresent(log, key, |log|);
    var q := LastResetExists(log, key, |log|);
    forall p: nat | LastReset(log, key, |log|, p)
      ensures Lookup(Fold(log).kvStore, key) == ValueSince(log, key, p, |log|)
    {
      KeyValue(log, key, |log|, p);
    }
  }

  /** What a command that takes effect is told. */
  lemma ReplyMeans(log: seq<Op>, i: nat)
    requires i < |log| && TakesEffect(log, i)
    ensures log[i].kind == "Get" && !Present(log, log[i].key, i) ==> ReplyAt(log, i) == OpReply(ERR_NO_KEY, "")
    ensures log[i].kind == "Get" && Present(log, log[i].key, i) ==> forall p: nat ::
      LastReset(log, log[i].key, i, p) ==> ReplyAt(log, i) == OpReply(OK, ValueSince(log, log[i].key, p, i))
    ensures log[i].kind in {"Put", "Append", "Delete"} ==> ReplyAt(log, i) == OpReply(OK, "")
    ensures log[i].kind !in {"Get", "Put", "Append", "Delete"} ==> ReplyAt(log, i) == OpReply("", "")
  {
    var key := log[i].key;
    KeyPresent(log, key, i);
    forall p: nat | LastReset(log, key, i, p)
      ensures Lookup(Fold(log[..i]).kvStore, key) == ValueSince(log, key, p, i)
    {
      KeyValue(log, key, i, p);
    }
  }

  /** A deleted key is gone, whatever was written before it. */
  lemma DeletedIsGone(log: seq<Op>, d: nat, i: nat)
    requires d < i < |log| && Does(log, d, log[i].key, "Delete") && Does(log, i, log[i].key, "Get")
    requires forall j :: d < j < i ==> !Writes(log, j, log[i].key)
    ensures ReplyAt(log, i) == OpReply(ERR_NO_KEY, "")
  {
    ReplyMeans(log, i);
  }
}
