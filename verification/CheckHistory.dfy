/** Checking a history: one search per partition, their answers collected as they arrive. */
module CheckHistory {
  import opened Options
  import opened Collections
  import opened Linearizability
  import opened Histories
  import opened SearchTree
  import opened Checker
  import opened TimedOperations
  import opened Locality
  import opened Partition

  datatype CheckResult = Unknown | Ok | Illegal

  ghost predicate LinearizableEntries<S(!new), I(!new), O(!new)>(m: Model<S, I, O>, h: seq<Entry<I, O>>) {
    Complete(h) && Timed(ProblemOf(m, h)) && Linearizable(ProblemOf(m, h))
  }

  // ---------------------------------------------------------------------
  // Partial linearizations
  // ---------------------------------------------------------------------

  /** What was recorded are partial linearizations, each through its operation. */
  ghost predicate Sound<S(!new), I(!new), O(!new)>(m: Model<S, I, O>, h: seq<Entry<I, O>>, longest: Longest) {
    Complete(h) && Timed(ProblemOf(m, h)) && LongestSound(ProblemOf(m, h), longest)
  }

  /** No partial linearization through an operation is longer than the one recorded for it. */
  ghost predicate Exhaustive<S(!new), I(!new), O(!new)>(m: Model<S, I, O>, h: seq<Entry<I, O>>, longest: Longest) {
    && Complete(h) && Timed(ProblemOf(m, h))
    && forall order, a: nat :: PartialLinearization(ProblemOf(m, h), order) && a in order ==> RecordedAt(longest, a, |order|)
  }

  lemma PartialFits<S(!new)>(p: Problem<S>, order: seq<nat>)
    requires Timed(p) && PartialLinearization(p, order)
    ensures |order| <= p.n
  {
    MembersSize(order);
    assert Members(order) <= Below(p.n);
    SubsetSize(Members(order), Below(p.n));
  }

  lemma VerdictRecords<S(!new), I(!new), O(!new)>(
    m: Model<S, I, O>, h: seq<Entry<I, O>>, partial: bool, ok: bool, longest: Longest)
    requires Complete(h) && Timed(ProblemOf(m, h)) && Verdict(m, h, partial, ok, longest)
    ensures Sound(m, h, longest) && (partial ==> Exhaustive(m, h, longest))
    ensures ok <==> LinearizableEntries(m, h)
  {
    var p := ProblemOf(m, h);
    if ok {
      forall a | 0 <= a < p.n ensures a in longest[a].value && PartialLinearization(p, longest[a].value) {
        FullPartialIsLinearization(p, longest[a].value);
        AllPresent(p.n, longest[a].value, a);
      }
      forall order, a: nat | PartialLinearization(p, order) && a in order ensures RecordedAt(longest, a, |order|) {
        PartialFits(p, order);
      }
    }
  }

  /** The recorded sequences, each once. */
  method Distill(longest: Longest) returns (partials: seq<seq<nat>>)
    ensures forall x :: x in partials <==> exists a :: 0 <= a < |longest| && longest[a] == Some(x)
    ensures forall i, j :: 0 <= i < j < |partials| ==> partials[i] != partials[j]
  {
    partials := [];
    for a := 0 to |longest|
      invariant forall x :: x in partials <==> exists b :: 0 <= b < a && longest[b] == Some(x)
      invariant forall i, j :: 0 <= i < j < |partials| ==> partials[i] != partials[j]
    {
      if longest[a].Some? && longest[a].value !in partials {
        partials := partials + [longest[a].value];
      }
    }
  }

  ghost predicate PartialsSound<S(!new), I(!new), O(!new)>(m: Model<S, I, O>, h: seq<Entry<I, O>>, partials: seq<seq<nat>>) {
    && Complete(h) && Timed(ProblemOf(m, h))
    && forall x :: x in partials ==> PartialLinearization(ProblemOf(m, h), x)
  }

  ghost predicate Reached(partials: seq<seq<nat>>, a: nat, len: nat) {
    exists x :: x in partials && a in x && |x| >= len
  }

  /** For every operation, a longest partial linearization through it. */
  ghost predicate PartialsExhaustive<S(!new), I(!new), O(!new)>(m: Model<S, I, O>, h: seq<Entry<I, O>>, partials: seq<seq<nat>>) {
    && Complete(h) && Timed(ProblemOf(m, h))
    && forall order, a: nat :: PartialLinearization(ProblemOf(m, h), order) && a in order ==> Reached(partials, a, |order|)
  }

  lemma Distilled<S(!new), I(!new), O(!new)>(
    m: Model<S, I, O>, h: seq<Entry<I, O>>, longest: Longest, partials: seq<seq<nat>>)
    requires Sound(m, h, longest)
    requires forall x :: x in partials <==> exists a :: 0 <= a < |longest| && longest[a] == Some(x)
    ensures PartialsSound(m, h, partials)
    ensures Exhaustive(m, h, longest) ==> PartialsExhaustive(m, h, partials)
  {
    if Exhaustive(m, h, longest) {
      var p := ProblemOf(m, h);
      forall order, a: nat | PartialLinearization(p, order) && a in order ensures Reached(partials, a, |order|) {
        assert RecordedAt(longest, a, |order|);
        assert longest[a].value in partials;
      }
    }
  }

  // ---------------------------------------------------------------------
  // All partitions
  // ---------------------------------------------------------------------

  ghost predicate RecordOf<S(!new), I(!new), O(!new)>(m: Model<S, I, O>, h: seq<Entry<I, O>>, exhaustive: bool, longest: Longest) {
    Sound(m, h, longest) && (exhaustive ==> Exhaustive(m, h, longest))
  }

  /** The records received so far. */
  ghost predicate Received<S(!new), I(!new), O(!new)>(
    m: Model<S, I, O>, history: seq<seq<Entry<I, O>>>, exhaustive: bool, arrivals: seq<nat>, count: nat, longest: seq<Longest>)
    requires count <= |arrivals| && Ids(|history|, arrivals) && |longest| == |history|
  {
    forall j :: 0 <= j < count ==> RecordOf(m, history[arrivals[j]], exhaustive, longest[arrivals[j]])
  }

  /** Which of `n` partitions are among the first `count` to answer. */
  ghost function Answered(n: nat, arrivals: seq<nat>, count: nat): (r: seq<bool>)
    requires count <= |arrivals|
    ensures |r| == n && forall i :: 0 <= i < n ==> (r[i] <==> exists j :: 0 <= j < count && arrivals[j] == i)
  {
    seq(n, i => exists j :: 0 <= j < count && arrivals[j] == i)
  }

  /** All records are in, and the first `count` of them are exhaustive. */
  lemma ReceivedAll<S(!new), I(!new), O(!new)>(
    m: Model<S, I, O>, history: seq<seq<Entry<I, O>>>, arrivals: seq<nat>, count: nat, longest: seq<Longest>)
    requires |arrivals| == |history| == |longest| && Ids(|history|, arrivals) && Distinct(arrivals) && count <= |history|
    requires Received(m, history, true, arrivals, count, longest) && Received(m, history, false, arrivals, |history|, longest)
    ensures var answered := Answered(|history|, arrivals, count);
      forall i :: 0 <= i < |history| ==> RecordOf(m, history[i], answered[i], longest[i])
  {
    var answered := Answered(|history|, arrivals, count);
    forall i | 0 <= i < |history| ensures RecordOf(m, history[i], answered[i], longest[i]) {
      AllPresent(|history|, arrivals, i);
      var j :| 0 <= j < |arrivals| && arrivals[j] == i && (answered[i] ==> j < count);
      assert RecordOf(m, history[arrivals[j]], answered[i], longest[arrivals[j]]);
    }
  }

  ghost predicate AllOk<S(!new), I(!new), O(!new)>(
    m: Model<S, I, O>, history: seq<seq<Entry<I, O>>>, arrivals: seq<nat>, count: nat)
    requires count <= |arrivals| && Ids(|history|, arrivals)
  {
    forall j :: 0 <= j < count ==> LinearizableEntries(m, history[arrivals[j]])
  }

  lemma AllOkAll<S(!new), I(!new), O(!new)>(
    m: Model<S, I, O>, history: seq<seq<Entry<I, O>>>, arrivals: seq<nat>)
    requires |arrivals| == |history| && Ids(|history|, arrivals) && Distinct(arrivals)
    requires AllOk(m, history, arrivals, |history|)
    ensures forall i :: 0 <= i < |history| ==> LinearizableEntries(m, history[i])
  {
    forall i | 0 <= i < |history| ensures LinearizableEntries(m, history[i]) {
      AllPresent(|history|, arrivals, i);
      var j :| 0 <= j < |arrivals| && arrivals[j] == i;
      assert LinearizableEntries(m, history[arrivals[j]]);
    }
  }

  /** One search, run to its end. */
  method Search<S(!new), I(!new), O(!new)>(m: Model<S, I, O>, h: seq<Entry<I, O>>, computeInfo: bool)
    returns (ok: bool, longest: Longest)
    requires Respected(m) && Complete(h)
    ensures ok <==> LinearizableEntries(m, h)
    ensures RecordOf(m, h, computeInfo, longest)
  {
    ghost var killed;
    ok, longest, killed := CheckSingle(m, h, computeInfo, _ => false);
    VerdictRecords(m, h, computeInfo, ok, longest);
  }

  /** Waits for the searches still running, which read `kill` of the flag that stops them. */
  method Drain<S(!new), I(!new), O(!new)>(
    m: Model<S, I, O>, history: seq<seq<Entry<I, O>>>, arrivals: seq<nat>, received: nat, longest: seq<Longest>,
    kill: (nat, nat) -> bool)
    returns (longest': seq<Longest>)
    requires Respected(m) && forall i :: 0 <= i < |history| ==> Complete(history[i])
    requires |arrivals| == |history| == |longest| && Ids(|history|, arrivals) && Distinct(arrivals)
    requires received <= |history| && Received(m, history, false, arrivals, received, longest)
    ensures |longest'| == |history| && Received(m, history, false, arrivals, |history|, longest')
    ensures forall j :: 0 <= j < received ==> longest'[arrivals[j]] == longest[arrivals[j]]
  {
    longest' := longest;
    for count := received to |history|
      invariant |longest'| == |history| && Received(m, history, false, arrivals, count, longest')
      invariant forall j :: 0 <= j < received ==> longest'[arrivals[j]] == longest[arrivals[j]]
    {
      var i: nat := arrivals[count];
      var ok, l; ghost var killed;
      ok, l, killed := CheckSingle(m, history[i], true, (t: nat) => kill(i, t));
      if !killed { VerdictRecords(m, history[i], true, ok, l); }
      longest' := longest'[i := l];
    }
  }

  ghost predicate InfoOf<S(!new), I(!new), O(!new)>(
    m: Model<S, I, O>, h: seq<Entry<I, O>>, exhaustive: bool, partials: seq<seq<nat>>)
  {
    PartialsSound(m, h, partials) && (exhaustive ==> PartialsExhaustive(m, h, partials))
  }

  lemma RecordDistilled<S(!new), I(!new), O(!new)>(
    m: Model<S, I, O>, h: seq<Entry<I, O>>, exhaustive: bool, longest: Longest, partials: seq<seq<nat>>)
    requires RecordOf(m, h, exhaustive, longest)
    requires forall x :: x in partials <==> exists a :: 0 <= a < |longest| && longest[a] == Some(x)
    ensures InfoOf(m, h, exhaustive, partials)
  {
    Distilled(m, h, longest, partials);
  }

  method DistillAll<S(!new), I(!new), O(!new)>(
    ghost m: Model<S, I, O>, ghost history: seq<seq<Entry<I, O>>>, longest: seq<Longest>, ghost exhaustive: seq<bool>)
    returns (info: seq<seq<seq<nat>>>)
    requires |longest| == |history| == |exhaustive|
    requires forall i :: 0 <= i < |history| ==> RecordOf(m, history[i], exhaustive[i], longest[i])
    ensures |info| == |history|
    ensures forall i :: 0 <= i < |history| ==> PartialsSound(m, history[i], info[i])
    ensures forall i :: 0 <= i < |history| && exhaustive[i] ==> PartialsExhaustive(m, history[i], info[i])
  {
    info := [];
    for i := 0 to |longest|
      invariant |info| == i && forall j :: 0 <= j < i ==> InfoOf(m, history[j], exhaustive[j], info[j])
    {
      var partials := Distill(longest[i]);
      RecordDistilled(m, history[i], exhaustive[i], longest[i], partials);
      info := info + [partials];
    }
  }

  /** The timeout fires: answers are still due when it does, or there is nothing to wait for. */
  predicate Fires(timeout: Option<nat>, n: nat) {
    timeout.Some? && (timeout.value < n || n == 0)
  }

  /** The `j`th answer to arrive is in time. */
  predicate InTime(timeout: Option<nat>, j: nat) {
    timeout.Some? ==> j < timeout.value
  }

  /** An answer that arrives in time tells of a partition that is not linearizable. */
  ghost predicate BadInTime<S(!new), I(!new), O(!new)>(
    m: Model<S, I, O>, history: seq<seq<Entry<I, O>>>, arrivals: seq<nat>, timeout: Option<nat>)
    requires Ids(|history|, arrivals)
  {
    exists j :: 0 <= j < |arrivals| && InTime(timeout, j) && !LinearizableEntries(m, history[arrivals[j]])
  }

  /** What is known when the first `count` answers have arrived, in time. */
  lemma OkSoFar<S(!new), I(!new), O(!new)>(
    m: Model<S, I, O>, history: seq<seq<Entry<I, O>>>, arrivals: seq<nat>, timeout: Option<nat>, count: nat)
    requires |arrivals| == |history| && Ids(|history|, arrivals) && count <= |history|
    requires timeout.Some? ==> count <= timeout.value
    ensures !AllOk(m, history, arrivals, count) ==> BadInTime(m, history, arrivals, timeout)
    ensures AllOk(m, history, arrivals, count) && (count == |history| || timeout == Some(count)) ==>
      !BadInTime(m, history, arrivals, timeout)
  {
    if !AllOk(m, history, arrivals, count) {
      var j :| 0 <= j < count && !LinearizableEntries(m, history[arrivals[j]]);
      assert InTime(timeout, j);
    }
  }

  /** If every answer is in time, a bad partition is found exactly if there is one. */
  lemma BadIsBad<S(!new), I(!new), O(!new)>(
    m: Model<S, I, O>, history: seq<seq<Entry<I, O>>>, arrivals: seq<nat>, timeout: Option<nat>)
    requires |arrivals| == |history| && Ids(|history|, arrivals) && Distinct(arrivals) && !Fires(timeout, |history|)
    ensures BadInTime(m, history, arrivals, timeout) <==> exists i :: 0 <= i < |history| && !LinearizableEntries(m, history[i])
  {
    if i :| 0 <= i < |history| && !LinearizableEntries(m, history[i]) {
      AllPresent(|history|, arrivals, i);
      var j :| 0 <= j < |arrivals| && arrivals[j] == i;
      assert InTime(timeout, j) && !LinearizableEntries(m, history[arrivals[j]]);
    }
  }

  /** If the first `count` answers are exhaustive, those in time are; and all are, if every answer is in time. */
  lemma InfoInTime<S(!new), I(!new), O(!new)>(
    m: Model<S, I, O>, history: seq<seq<Entry<I, O>>>, arrivals: seq<nat>, timeout: Option<nat>, count: nat, info: seq<seq<seq<nat>>>)
    requires |arrivals| == |history| == |info| && Ids(|history|, arrivals) && Distinct(arrivals) && count <= |history|
    requires count == |history| || timeout == Some(count)
    requires forall i :: 0 <= i < |history| && Answered(|history|, arrivals, count)[i] ==> PartialsExhaustive(m, history[i], info[i])
    ensures forall j :: 0 <= j < |arrivals| && InTime(timeout, j) ==> PartialsExhaustive(m, history[arrivals[j]], info[arrivals[j]])
    ensures !Fires(timeout, |history|) ==> forall i :: 0 <= i < |history| ==> PartialsExhaustive(m, history[i], info[i])
  {
    forall j | 0 <= j < |arrivals| && InTime(timeout, j) ensures PartialsExhaustive(m, history[arrivals[j]], info[arrivals[j]]) {
      assert Answered(|history|, arrivals, count)[arrivals[j]];
    }
    if !Fires(timeout, |history|) {
      forall i | 0 <= i < |history| ensures PartialsExhaustive(m, history[i], info[i]) {
        AllPresent(|history|, arrivals, i);
        var j :| 0 <= j < |arrivals| && arrivals[j] == i;
        assert InTime(timeout, j);
      }
    }
  }

  /**
   Runs a search on every partition.  The answers arrive in the order
   `arrivals`; the timeout, if it fires at all, fires after `timeout` of them.
   (With nothing to wait for and no timeout, the program waits forever.)
   */
  method CheckParallel<S(!new), I(!new), O(!new)>(
    m: Model<S, I, O>, history: seq<seq<Entry<I, O>>>, computeInfo: bool,
    arrivals: seq<nat>, timeout: Option<nat>, kill: (nat, nat) -> bool)
    returns (result: CheckResult, info: seq<seq<seq<nat>>>)
    requires Respected(m) && forall i :: 0 <= i < |history| ==> Complete(history[i])
    requires |arrivals| == |history| && Ids(|history|, arrivals) && Distinct(arrivals)
    requires |history| > 0 || timeout == Some(0)
    ensures result == Illegal <==> BadInTime(m, history, arrivals, timeout)
    ensures result == Unknown <==> !BadInTime(m, history, arrivals, timeout) && Fires(timeout, |history|)
    ensures result == Ok ==> forall i :: 0 <= i < |history| ==> LinearizableEntries(m, history[i])
    ensures !Fires(timeout, |history|) ==>
      (result == Ok <==> forall i :: 0 <= i < |history| ==> LinearizableEntries(m, history[i]))
    ensures computeInfo ==> |info| == |history| && forall i :: 0 <= i < |history| ==> PartialsSound(m, history[i], info[i])
    ensures computeInfo ==> forall j :: 0 <= j < |arrivals| && InTime(timeout, j) ==>
      PartialsExhaustive(m, history[arrivals[j]], info[arrivals[j]])
    ensures computeInfo && !Fires(timeout, |history|) ==> forall i :: 0 <= i < |history| ==> PartialsExhaustive(m, history[i], info[i])
    ensures !computeInfo ==> info == []
  {
    var ok, timedOut, count, waiting := true, false, 0, true;
    var longest: seq<Longest> := seq(|history|, _ => []);
    while waiting
      invariant 0 <= count <= |history| && |longest| == |history|
      invariant waiting ==> !timedOut && (count < |history| || |history| == 0)
      invariant !waiting ==> timedOut || count == |history| || (!ok && !computeInfo)
      invariant timedOut ==> timeout == Some(count) && Fires(timeout, |history|)
      invariant timeout.Some? ==> count <= timeout.value
      invariant !waiting && !timedOut && count == |history| ==> count > 0
      invariant ok <==> AllOk(m, history, arrivals, count)
      invariant Received(m, history, computeInfo, arrivals, count, longest)
      decreases waiting, |history| - count
    {
      if timeout == Some(count) {
        timedOut, waiting := true, false;
      } else {
        var i := arrivals[count];
        var result, l := Search(m, history[i], computeInfo);
        longest := longest[i := l];
        count := count + 1;
        ok := ok && result;
        if (!ok && !computeInfo) || count >= |history| {
          waiting := false;
        }
      }
    }
    OkSoFar(m, history, arrivals, timeout, count);
    if !Fires(timeout, |history|) { BadIsBad(m, history, arrivals, timeout); }
    info := [];
    if computeInfo {
      longest := Drain(m, history, arrivals, count, longest, kill);
      ReceivedAll(m, history, arrivals, count, longest);
      info := DistillAll(m, history, longest, Answered(|history|, arrivals, count));
      InfoInTime(m, history, arrivals, timeout, count, info);
    }
    if !ok {
      result := Illegal;
    } else if timedOut {
      result := Unknown;
    } else {
      AllOkAll(m, history, arrivals);
      result := Ok;
    }
  }

  // ---------------------------------------------------------------------
  // Whole histories
  // ---------------------------------------------------------------------

  /** An answer that arrives in time tells of a key whose operations are not linearizable. */
  ghost predicate BadPartInTime<S(!new), I(!new), O(!new)>(
    m: Model<S, I, O>, keyOf: I -> string, history: seq<Operation<I, O>>, keys: seq<string>, arrivals: seq<nat>, timeout: Option<nat>)
    requires Ids(|keys|, arrivals)
  {
    exists j :: 0 <= j < |arrivals| && InTime(timeout, j) && !LinearizableHistory(m, Part(keyOf, history, keys[arrivals[j]]))
  }

  /**
   Checks a history against a store with one object of model `m` per key.  An
   answer other than `Unknown` is the truth about the whole history; the
   partial linearizations returned with it are real, and, for every key
   answered in time, as long as there are.
   */
  method CheckOperations<S(!new), I(!new), O(!new)>(
    m: Model<S, I, O>, keyOf: I -> string, history: seq<Operation<I, O>>, verbose: bool,
    arrivals: seq<nat>, timeout: Option<nat>, kill: (nat, nat) -> bool)
    returns (result: CheckResult, entries: seq<seq<Entry<I, O>>>, info: seq<seq<seq<nat>>>, ghost keys: seq<string>)
    requires Respected(m) && WellTimed(history)
    requires |arrivals| == |KeysOf(keyOf, history)| && Ids(|arrivals|, arrivals) && Distinct(arrivals)
    requires history != [] || timeout == Some(0)
    ensures result == Ok ==> LinearizableHistory(Store(m, keyOf), history)
    ensures result == Illegal ==> !LinearizableHistory(Store(m, keyOf), history)
    ensures !Fires(timeout, |keys|) ==>
      result == (if LinearizableHistory(Store(m, keyOf), history) then Ok else Illegal)
    ensures Ascending(keys) && |entries| == |keys| && forall k :: k in keys <==> k in KeysOf(keyOf, history)
    ensures forall i :: 0 <= i < |keys| ==> Arranged(Part(keyOf, history, keys[i]), entries[i])
    ensures verbose ==> |info| == |keys| && forall i :: 0 <= i < |keys| ==> PartialsSound(m, entries[i], info[i])
    ensures Ids(|keys|, arrivals) && (result == Illegal <==> BadPartInTime(m, keyOf, history, keys, arrivals, timeout))
    ensures result == Unknown <==> result != Illegal && Fires(timeout, |keys|)
    ensures verbose ==> forall j :: 0 <= j < |arrivals| && InTime(timeout, j) ==>
      PartialsExhaustive(m, entries[arrivals[j]], info[arrivals[j]])
    ensures verbose && !Fires(timeout, |keys|) ==> forall i :: 0 <= i < |keys| ==> PartialsExhaustive(m, entries[i], info[i])
    ensures !verbose ==> info == []
  {
    var parts;
    parts, keys := PartitionByKey(keyOf, history);
    PartsDecide(m, keyOf, history, parts, keys);
    OnePartPerKey(keyOf, history, keys);
    entries := EntriesOf(m, parts);
    result, info := CheckParallel(m, entries, verbose, arrivals, timeout, kill);
  }

  lemma OnePartPerKey<I, O>(keyOf: I -> string, history: seq<Operation<I, O>>, keys: seq<string>)
    requires Ascending(keys) && forall k :: k in keys <==> k in KeysOf(keyOf, history)
    ensures |keys| == |KeysOf(keyOf, history)| && (history != [] ==> keys != [])
  {
    AscendingSize(keys, KeysOf(keyOf, history));
    if history != [] {
      assert keyOf(history[0].input) in KeysOf(keyOf, history);
    }
  }

  ghost predicate EntriesFor<S(!new), I(!new), O(!new)>(m: Model<S, I, O>, part: seq<Operation<I, O>>, h: seq<Entry<I, O>>) {
    Arranged(part, h) && Complete(h) && (LinearizableEntries(m, h) <==> LinearizableHistory(m, part))
  }

  /** The entries of every part. */
  method EntriesOf<S(!new), I(!new), O(!new)>(ghost m: Model<S, I, O>, parts: seq<seq<Operation<I, O>>>)
    returns (l: seq<seq<Entry<I, O>>>)
    requires forall j :: 0 <= j < |parts| ==> WellTimed(parts[j])
    ensures |l| == |parts| && forall j :: 0 <= j < |l| ==> EntriesFor(m, parts[j], l[j])
  {
    l := [];
    for i := 0 to |parts|
      invariant |l| == i && forall j :: 0 <= j < i ==> EntriesFor(m, parts[j], l[j])
    {
      var h := MakeEntries(parts[i]);
      EntriesKeepMeaning(m, parts[i], h);
      assert EntriesFor(m, parts[i], h);
      l := l + [h];
    }
  }
}
