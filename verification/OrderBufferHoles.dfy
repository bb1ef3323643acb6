/** What the ordering buffer makes of any messages at all, in any order: numbers may be missing
    for good, and messages may carry no number. */
module OrderBufferHoles {
  import opened Wrappers
  import opened ChatMessages
  import opened OrderBuffer
  import opened OrderBufferRuns
  import opened Sets

  /** Neither an id nor a number from n on is used twice. */
  ghost predicate Distinct(n: int, ms: set<Message>) {
    forall a, b :: a in ms && b in ms && (a.messageId == b.messageId || a.lessonSeq == b.lessonSeq >= n) ==> a == b
  }

  /** The numbers in use. */
  function Numbers(ms: set<Message>): set<int> {
    set m | m in ms && m.lessonSeq > 0 :: m.lessonSeq
  }

  function Beyond(numbers: set<int>, n: int): set<int> {
    set k | k in numbers && k > n
  }

  /** The capacity is at least the count of numbers in use above n. */
  ghost predicate Roomy(n: int, capacity: int, numbers: set<int>) {
    Beyond(numbers, n) == {} || |Beyond(numbers, n)| <= capacity
  }

  /** h is the least number from n on that is not in use. */
  ghost predicate FirstHole(n: int, numbers: set<int>, h: int) {
    n <= h && h !in numbers && forall k :: n <= k < h ==> k in numbers
  }

  ghost predicate NoRepeats(ms: seq<Message>) {
    forall i, j :: 0 <= i < j < |ms| ==> ms[i] != ms[j]
  }

  /** Numbered n, n+1, ..., h-1. */
  ghost predicate Ascending(n: int, h: int, ms: seq<Message>) {
    |ms| == h - n && forall i :: 0 <= i < |ms| ==> ms[i].lessonSeq == n + i
  }

  ghost predicate ShowsExactly(n: int, given: set<Message>, s: State) {
    forall m :: m in s.shown <==> m in given && (m.lessonSeq <= 0 || n <= m.lessonSeq < s.nextSeq)
  }

  /** The given messages without a number, and those with one from n up to the first number
      that was not given, are shown, each once, the numbered ones in order; the numbers beyond
      are held. */
  ghost predicate ShowsUpToHole(n: int, given: set<Message>, s: State) {
    && FirstHole(n, Numbers(given), s.nextSeq)
    && ShowsExactly(n, given, s)
    && NoRepeats(s.shown)
    && Ascending(n, s.nextSeq, Sequenced(s.shown))
    && s.pending.Keys == Beyond(Numbers(given), s.nextSeq)
    && (s.gapRequested <==> s.pending != map[])
  }

  // ------------------------------------------------------------ the specification's side

  /** Everything given from n on has been taken, and every given message without a number. */
  ghost predicate TookAll(sp: Spec, n: int, capacity: int, given: set<Message>) {
    && sp.first == n && sp.capacity == capacity
    && sp.accepted.Keys == (set k | k in Numbers(given) && k >= n)
    && (forall m :: m in given && m.lessonSeq <= 0 ==> m.messageId in Ids(sp.loose))
    && (forall m :: m in sp.loose ==> m.lessonSeq <= 0)
    && NoRepeats(sp.loose)
  }

  lemma NumbersGrow(given: set<Message>, m: Message)
    ensures Numbers(given + {m}) ==
            Numbers(given) + (if m.lessonSeq > 0 then {m.lessonSeq} else {})
  {
  }

  /** A number with a hole below it finds room. */
  lemma HoleLeavesRoom(sp: Spec, n: int, capacity: int, given: set<Message>, k: int, numbers: set<int>)
    requires TookAll(sp, n, capacity, given) && n <= k && k !in sp.accepted && !InOrder(sp, k)
    requires Numbers(given) <= numbers && k in numbers && Roomy(n, capacity, numbers)
    ensures |Held(sp)| < sp.capacity
  {
    var h := Held(sp);
    assert n !in h;
    assert h + {k} <= Beyond(numbers, n);
    SubsetSize(h + {k}, Beyond(numbers, n));
    assert |h + {k}| == |h| + 1;
  }

  /** The given messages with one more input. */
  function WithNext(given: set<Message>, incoming: Option<Message>): set<Message> {
    if incoming.Some? && incoming.value.messageId != "" then given + {incoming.value} else given
  }

  lemma TakesNext(sp: Spec, n: int, capacity: int, given: set<Message>, incoming: Option<Message>, numbers: set<int>)
    requires TookAll(sp, n, capacity, given) && n > 0
    requires Numbers(WithNext(given, incoming)) <= numbers && Roomy(n, capacity, numbers)
    ensures SpecPush(sp, incoming).1 != Full && TookAll(SpecPush(sp, incoming).0, n, capacity, WithNext(given, incoming))
  {
    if incoming.Some? && incoming.value.messageId != "" {
      var m := incoming.value;
      NumbersGrow(given, m);
      if m.lessonSeq <= 0 {
        TakesLoose(sp, n, capacity, given, m);
      } else if m.lessonSeq >= n && m.lessonSeq !in sp.accepted && !InOrder(sp, m.lessonSeq) {
        HoleLeavesRoom(sp, n, capacity, given, m.lessonSeq, numbers);
      }
      hide Held, InOrder, Roomy;
    }
  }

  lemma TakesLoose(sp: Spec, n: int, capacity: int, given: set<Message>, m: Message)
    requires TookAll(sp, n, capacity, given) && m.messageId != "" && m.lessonSeq <= 0
    ensures SpecPush(sp, Some(m)).1 != Full && TookAll(SpecPush(sp, Some(m)).0, n, capacity, given + {m})
  {
    NumbersGrow(given, m);
    hide Numbers, Held, InOrder;
    if m.messageId !in Ids(sp.loose) { ShownGrows(sp.loose, m); }
  }

  lemma {:induction false} SpecTakesAll(n: int, capacity: int, inputs: Inputs, numbers: set<int>)
    requires n > 0 && Numbers(Given(inputs)) <= numbers && Roomy(n, capacity, numbers)
    ensures var (sp, rs) := SpecRun(Spec(n, capacity, map[], []), inputs);
            Full !in rs && TookAll(sp, n, capacity, Given(inputs))
  {
    if inputs == [] {
      assert Given(inputs) == {};
    } else {
      var k := |inputs| - 1;
      var before, x := inputs[..k], inputs[k];
      assert inputs == before + [x];
      assert Given(inputs) == WithNext(Given(before), x);
      if x.Some? { NumbersGrow(Given(before), x.value); }
      SpecTakesAll(n, capacity, before, numbers);
      TakesNext(SpecRun(Spec(n, capacity, map[], []), before).0, n, capacity, Given(before), x, numbers);
      hide TookAll, SpecPush, Roomy, Numbers;
    }
  }

  // ------------------------------------------------------------ the buffer's side

  lemma {:induction false} PartsWithoutRepeats(ms: seq<Message>)
    requires NoRepeats(Sequenced(ms)) && NoRepeats(Loose(ms))
    ensures NoRepeats(ms)
  {
    if ms != [] {
      var front, m := ms[..|ms| - 1], ms[|ms| - 1];
      assert ms == front + [m];
      ShownGrows(front, m);
      if m.lessonSeq > 0 {
        PrefixWithoutRepeats(Sequenced(front), m);
        assert Loose(ms) == Loose(front);
      } else {
        PrefixWithoutRepeats(Loose(front), m);
        assert Sequenced(ms) == Sequenced(front);
      }
      PartsWithoutRepeats(front);
      ShownSplit(front, m);
    }
  }

  lemma {:induction false} NothingLoose(ms: seq<Message>)
    requires forall m :: m in ms ==> m.lessonSeq > 0
    ensures Loose(ms) == []
  {
    if ms != [] {
      NothingLoose(ms[..|ms| - 1]);
      assert ms[|ms| - 1] in ms;
    }
  }

  lemma PrefixWithoutRepeats(front: seq<Message>, m: Message)
    requires NoRepeats(front + [m])
    ensures NoRepeats(front) && m !in front
  {
    var all := front + [m];
    assert forall i :: 0 <= i < |front| ==> all[i] == front[i];
    assert all[|front|] == m;
  }

  lemma OutputIsAscending(n: int, accepted: set<int>, given: set<Message>, s: State)
    requires ShowsAcceptedPrefix(n, accepted, given, s)
    ensures NoRepeats(Sequenced(s.shown))
  {
    var out := Sequenced(s.shown);
    forall i, j | 0 <= i < j < |out| ensures out[i] != out[j] {
      assert out[i].lessonSeq == n + i && out[j].lessonSeq == n + j;
    }
  }

  /** Which messages are shown, by number and by id. */
  lemma ShownAre(sp: Spec, s: State, n: int, capacity: int, given: set<Message>, m: Message)
    requires Refines(sp, s) && TookAll(sp, n, capacity, given) && Taken(sp) <= given && Distinct(n, given)
    requires ShowsAcceptedPrefix(n, sp.accepted.Keys, given, s)
    ensures m in s.shown <==> m in given && (m.lessonSeq <= 0 || n <= m.lessonSeq < s.nextSeq)
  {
    ShownSplit(s.shown, m);
    var out := Sequenced(s.shown);
    hide Sequenced, Loose, Segment;
    if m.lessonSeq > 0 {
      if m in out {
        var i :| 0 <= i < |out| && out[i] == m;
        assert m.lessonSeq in sp.accepted.Keys;
        assert m.lessonSeq in Numbers(given);
        var x :| x in given && x.lessonSeq == m.lessonSeq;
        assert x == m;
      }
      if m in given && n <= m.lessonSeq < s.nextSeq {
        assert out[m.lessonSeq - n].lessonSeq == m.lessonSeq;
        assert out[m.lessonSeq - n] == m;
      }
    } else {
      if m in sp.loose { assert m in Taken(sp); }
      if m in given {
        var x :| x in sp.loose && x.messageId == m.messageId;
        assert x in Taken(sp);
      }
    }
  }

  /** MAIN RESULT for the buffer when numbers may be missing. From n > 0, whatever is given, in
      whatever order and with whatever repeats, as long as no id and no number from n on is used twice
      and the capacity covers the numbers above n: nothing is thrown, and what is shown and
      held at the end depends only on the set of messages given. */
  lemma EverythingUpToTheHole(n: int, capacity: int, inputs: Inputs)
    requires n > 0 && Distinct(n, Given(inputs)) && Roomy(n, capacity, Numbers(Given(inputs)))
    ensures var (s, rs) := Run(Initial(n, capacity), inputs);
            Full !in rs && ShowsUpToHole(n, Given(inputs), s)
  {
    RunRefines(n, capacity, inputs);
    SpecTakesAll(n, capacity, inputs, Numbers(Given(inputs)));
    OutputOf(SpecRun(Spec(n, capacity, map[], []), inputs).0, Run(Initial(n, capacity), inputs).0, n, capacity, Given(inputs));
    hide ShowsUpToHole, TookAll, Refines, Taken, Distinct, Roomy;
  }

  lemma HoleIs(n: int, accepted: set<int>, given: set<Message>, s: State)
    requires ShowsAcceptedPrefix(n, accepted, given, s) && accepted == (set k | k in Numbers(given) && k >= n)
    ensures FirstHole(n, Numbers(given), s.nextSeq)
    ensures s.pending.Keys == Beyond(Numbers(given), s.nextSeq)
    ensures Ascending(n, s.nextSeq, Sequenced(s.shown))
  {
    hide Numbers, Sequenced;
    forall k | n <= k < s.nextSeq ensures k in Numbers(given) {
      assert k in accepted;
    }
  }

  lemma ShownOnce(sp: Spec, s: State, n: int, capacity: int, given: set<Message>)
    requires Refines(sp, s) && TookAll(sp, n, capacity, given) && ShowsAcceptedPrefix(n, sp.accepted.Keys, given, s)
    ensures NoRepeats(s.shown)
  {
    OutputIsAscending(n, sp.accepted.Keys, given, s);
    hide Sequenced, ShowsAcceptedPrefix, NoRepeats;
    PartsWithoutRepeats(s.shown);
  }

  lemma GapFlag(sp: Spec, s: State)
    requires Refines(sp, s)
    ensures s.gapRequested <==> s.pending != map[]
  {
    hide Core;
  }

  lemma ShowsExactlyThese(sp: Spec, s: State, n: int, capacity: int, given: set<Message>)
    requires Refines(sp, s) && TookAll(sp, n, capacity, given) && Taken(sp) <= given && Distinct(n, given)
    requires ShowsAcceptedPrefix(n, sp.accepted.Keys, given, s)
    ensures ShowsExactly(n, given, s)
  {
    hide Distinct, Taken, Refines, ShowsAcceptedPrefix, TookAll;
    forall m ensures m in s.shown <==> m in given && (m.lessonSeq <= 0 || n <= m.lessonSeq < s.nextSeq) {
      ShownAre(sp, s, n, capacity, given, m);
    }
  }

  lemma OutputOf(sp: Spec, s: State, n: int, capacity: int, given: set<Message>)
    requires Refines(sp, s) && TookAll(sp, n, capacity, given) && Taken(sp) <= given && Distinct(n, given)
    ensures ShowsUpToHole(n, given, s)
  {
    hide Distinct, Taken, Refines, ShowsAcceptedPrefix, ShowsExactly, NoRepeats, FirstHole, Sequenced, Numbers, Beyond;
    GapFlag(sp, s);
    assert sp.first == n;
    RefinedOutput(sp, s, given);
    HoleIs(n, sp.accepted.Keys, given, s);
    ShownOnce(sp, s, n, capacity, given);
    ShowsExactlyThese(sp, s, n, capacity, given);
  }

  /** The same from 0, the default start: until a numbered message comes the ones without a
      number are shown, and from then on the buffer is one started at that number. */
  lemma EverythingFromZero(capacity: int, inputs: Inputs)
    requires Distinct(1, Given(inputs)) && Roomy(0, capacity, Numbers(Given(inputs)))
    ensures var (s, rs) := Run(Initial(0, capacity), inputs);
            && Full !in rs && NoRepeats(s.shown)
            && (forall m :: m in Given(inputs) && m.lessonSeq <= 0 ==> m in s.shown)
            && (forall i :: AdoptsFirst(inputs, i) ==> ShowsUpToHole(inputs[i].value.lessonSeq, Given(inputs), s))
            && ((forall i :: !AdoptsFirst(inputs, i)) ==> s.nextSeq == 0 && s.pending == map[])
  {
    if i :| AdoptsFirst(inputs, i) {
      StartsAtFirstNumberRun(capacity, inputs, i);
      FromFirst(inputs[i].value.lessonSeq, capacity, inputs);
      FirstIsOne(inputs, i);
    } else {
      NoneAdopts(inputs, |inputs|);
      BeforeAdopting(1, capacity, inputs);
      FromFirst(1, capacity, inputs);
    }
    hide Run, ShowsExactly, Numbers, Distinct;
  }

  lemma FromFirst(n: int, capacity: int, inputs: Inputs)
    requires n > 0 && Distinct(1, Given(inputs)) && Roomy(0, capacity, Numbers(Given(inputs)))
    ensures var (s, rs) := Run(Initial(n, capacity), inputs);
            && Full !in rs && ShowsUpToHole(n, Given(inputs), s) && NoRepeats(s.shown)
            && (forall m :: m in Given(inputs) && m.lessonSeq <= 0 ==> m in s.shown)
  {
    SubsetSize(Beyond(Numbers(Given(inputs)), n), Beyond(Numbers(Given(inputs)), 0));
    EverythingUpToTheHole(n, capacity, inputs);
    hide Run;
  }

  lemma FirstIsOne(inputs: Inputs, i: int)
    requires AdoptsFirst(inputs, i)
    ensures forall j :: AdoptsFirst(inputs, j) ==> j == i
  {
  }

  lemma {:induction false} NoneAdopts(inputs: Inputs, k: nat)
    requires k <= |inputs| && forall i :: !AdoptsFirst(inputs, i)
    ensures forall j :: 0 <= j < k ==> !Adopts(inputs, j)
  {
    if k > 0 { NoneAdopts(inputs, k - 1); assert !AdoptsFirst(inputs, k - 1); }
  }
}
