/** Whole runs of the ordering buffer: refinement and convergence. */
module OrderBufferRuns {
  import opened Wrappers
  import opened ChatMessages
  import opened OrderBuffer
  import opened Sets

  type Inputs = seq<Option<Message>>

  function Run(s: State, inputs: Inputs): (State, seq<PushResult>) {
    if inputs == [] then (s, []) else
    var (t, rs) := Run(s, inputs[..|inputs| - 1]);
    var (u, r) := PushStep(t, inputs[|inputs| - 1]);
    (u, rs + [r])
  }

  ghost function SpecRun(sp: Spec, inputs: Inputs): (Spec, seq<PushResult>) {
    if inputs == [] then (sp, []) else
    var (tp, rs) := SpecRun(sp, inputs[..|inputs| - 1]);
    var (up, r) := SpecPush(tp, inputs[|inputs| - 1]);
    (up, rs + [r])
  }

  /** The messages given that have an id; `push` does not look at the others. */
  function Given(inputs: Inputs): set<Message> {
    set o | o in inputs && o.Some? && o.value.messageId != "" :: o.value
  }

  /** The numbers of the sequenced messages whose `push` returned true. */
  ghost function AcceptedNumbers(inputs: Inputs, results: seq<PushResult>): set<int>
    requires |results| == |inputs|
  {
    if inputs == [] then {} else
    var k := |inputs| - 1;
    AcceptedNumbers(inputs[..k], results[..k]) +
    (if results[k] == Accepted && inputs[k].Some? && inputs[k].value.lessonSeq > 0
     then {inputs[k].value.lessonSeq} else {})
  }

  lemma RunOneMore(s: State, inputs: Inputs, x: Option<Message>)
    ensures var (t, rs) := Run(s, inputs);
            Run(s, inputs + [x]) == (PushStep(t, x).0, rs + [PushStep(t, x).1])
  {
    assert (inputs + [x])[..|inputs|] == inputs;
  }

  /** Over every run, the buffer and the set-based specification agree on every result and
      stay related; everything taken was given. */
  lemma {:induction false} RunRefines(n: int, capacity: int, inputs: Inputs)
    requires n > 0 && IdFixesSeq(Given(inputs))
    ensures Run(Initial(n, capacity), inputs).1 == SpecRun(Spec(n, capacity, map[], []), inputs).1
    ensures Refines(SpecRun(Spec(n, capacity, map[], []), inputs).0, Run(Initial(n, capacity), inputs).0)
    ensures Taken(SpecRun(Spec(n, capacity, map[], []), inputs).0) <= Given(inputs)
  {
    var s, sp := Initial(n, capacity), Spec(n, capacity, map[], []);
    if inputs == [] {
      assert Refines(sp, s);
    } else {
      var before, last := inputs[..|inputs| - 1], inputs[|inputs| - 1];
      assert Given(before) <= Given(inputs);
      RunRefines(n, capacity, before);
      var tp := SpecRun(sp, before).0;
      PushRefines(tp, Run(s, before).0, last);
      TakenGrows(tp, last);
      hide Refines, PushStep, SpecPush, Taken, IdFixesSeq;
    }
  }

  lemma TakenGrows(sp: Spec, incoming: Option<Message>)
    ensures Taken(SpecPush(sp, incoming).0) <=
            Taken(sp) + (if incoming.Some? && incoming.value.messageId != "" then {incoming.value} else {})
  {
  }

  /** The accepted numbers of the specification are those whose push returned true. */
  lemma {:induction false} SpecAccepts(n: int, capacity: int, inputs: Inputs)
    requires n > 0
    ensures var (sp, rs) := SpecRun(Spec(n, capacity, map[], []), inputs);
            |rs| == |inputs| && sp.first == n && sp.capacity == capacity
            && sp.accepted.Keys == AcceptedNumbers(inputs, rs)
  {
    if inputs != [] {
      var k := |inputs| - 1;
      SpecAccepts(n, capacity, inputs[..k]);
      var (tp, ts) := SpecRun(Spec(n, capacity, map[], []), inputs[..k]);
      var rs := SpecRun(Spec(n, capacity, map[], []), inputs).1;
      assert rs[..k] == ts;
    }
  }

  lemma {:induction false} SegmentIndex(a: map<int, Message>, lo: int, hi: int)
    requires lo <= hi && forall k :: lo <= k < hi ==> k in a
    ensures |Segment(a, lo, hi)| == hi - lo
    ensures forall k :: lo <= k < hi ==> Segment(a, lo, hi)[k - lo] == a[k]
    decreases hi - lo
  {
    if lo < hi { SegmentIndex(a, lo, hi - 1); }
  }

  /** The sequenced output is n, n+1, ..., nextSeq-1, made of given messages; nextSeq is the
      least number from n on that was not accepted; and exactly the accepted numbers above
      it are held, each as a given message. */
  ghost predicate ShowsAcceptedPrefix(n: int, accepted: set<int>, given: set<Message>, s: State) {
    var out := Sequenced(s.shown);
    && n <= s.nextSeq && |out| == s.nextSeq - n
    && (forall i :: 0 <= i < |out| ==> out[i].lessonSeq == n + i && out[i] in given)
    && (forall k :: n <= k < s.nextSeq ==> k in accepted)
    && s.nextSeq !in accepted
    && s.pending.Keys == (set k | k in accepted && k > s.nextSeq)
    && (forall k :: k in s.pending ==> s.pending[k].lessonSeq == k && s.pending[k] in given)
  }

  lemma RefinedOutput(sp: Spec, s: State, given: set<Message>)
    requires Refines(sp, s) && Taken(sp) <= given
    ensures ShowsAcceptedPrefix(sp.first, sp.accepted.Keys, given, s)
  {
    forall k | k in sp.accepted ensures sp.accepted[k] in given {
      assert sp.accepted[k] in sp.accepted.Values;
    }
    SegmentIndex(sp.accepted, sp.first, s.nextSeq);
    forall i | 0 <= i < |Sequenced(s.shown)|
      ensures Sequenced(s.shown)[i].lessonSeq == sp.first + i && Sequenced(s.shown)[i] in given
    {
      assert Segment(sp.accepted, sp.first, s.nextSeq)[sp.first + i - sp.first] == sp.accepted[sp.first + i];
    }
  }

  /** MAIN RESULT for the buffer. From nextSeq = n > 0, after every run in which an id
      fixes its sequence number (losses, repeats, reordering, overflow errors included),
      the buffer shows and holds exactly what the accepted numbers say. */
  lemma OutputIsTheAcceptedPrefix(n: int, capacity: int, inputs: Inputs)
    requires n > 0 && IdFixesSeq(Given(inputs))
    ensures var (s, rs) := Run(Initial(n, capacity), inputs);
            && |rs| == |inputs|
            && ShowsAcceptedPrefix(n, AcceptedNumbers(inputs, rs), Given(inputs), s)
            && (|s.pending| <= capacity || s.pending == map[])
            && (s.gapRequested <==> s.pending != map[])
  {
    RunRefines(n, capacity, inputs);
    SpecAccepts(n, capacity, inputs);
    RefinedOutput(SpecRun(Spec(n, capacity, map[], []), inputs).0, Run(Initial(n, capacity), inputs).0, Given(inputs));
  }

  // -------------------------------------------------------------------- reused ids

  lemma {:induction false} DrainSeen(s: State)
    requires s.seen == Ids(s.shown)
    ensures Drain(s).seen == Ids(Drain(s).shown)
    decreases |s.pending|
  {
    if s.nextSeq in s.pending {
      ShownGrows(s.shown, s.pending[s.nextSeq]);
      hide Ids;
      DrainSeen(Show(s.(pending := s.pending - {s.nextSeq}), s.pending[s.nextSeq]));
    }
  }

  lemma PushSeen(s: State, incoming: Option<Message>)
    requires s.seen == Ids(s.shown)
    ensures PushStep(s, incoming).0.seen == Ids(PushStep(s, incoming).0.shown)
  {
    if incoming.Some? {
      var m := incoming.value;
      var t := if s.nextSeq == 0 then s.(nextSeq := m.lessonSeq) else s;
      ShownGrows(s.shown, m);
      hide Ids, Drain;
      DrainSeen(Show(t, m));
    }
  }

  /** Over every run, ids reused or not, an id counts as seen exactly when a message that
      carries it has been shown. */
  lemma {:induction false} SeenIsShown(n: int, capacity: int, inputs: Inputs)
    ensures Run(Initial(n, capacity), inputs).0.seen == Ids(Run(Initial(n, capacity), inputs).0.shown)
  {
    if inputs == [] {
      assert Ids([]) == {};
    } else {
      SeenIsShown(n, capacity, inputs[..|inputs| - 1]);
      PushSeen(Run(Initial(n, capacity), inputs[..|inputs| - 1]).0, inputs[|inputs| - 1]);
    }
  }

  /** The number has neither been shown nor is it held. */
  predicate Free(s: State, k: int) {
    k > 0 && k !in s.pending && (s.nextSeq == 0 || s.nextSeq <= k)
  }

  /** The id hypothesis is needed: in every run a message whose number is free is ignored,
      and so lost, if and only if one with its id has already been shown. A message that is
      only held does not count. */
  lemma FreeIsLostIffIdShown(n: int, capacity: int, inputs: Inputs, m: Message)
    requires m.messageId != "" && Free(Run(Initial(n, capacity), inputs).0, m.lessonSeq)
    ensures var s := Run(Initial(n, capacity), inputs).0;
            PushStep(s, Some(m)).1 == Ignored <==> exists x :: x in s.shown && x.messageId == m.messageId
  {
    SeenIsShown(n, capacity, inputs);
    hide Run, Drain;
  }

  /** Two messages under one id, both from the first number on: the second is lost if and
      only if the first one is shown at once. */
  lemma ReusedIdIsLostIff(n: int, capacity: int, a: Message, b: Message)
    requires n > 0 && capacity > 0 && a.messageId == b.messageId != ""
    requires a.lessonSeq >= n && b.lessonSeq >= n && a.lessonSeq != b.lessonSeq
    ensures var rs := Run(Initial(n, capacity), [Some(a), Some(b)]).1;
            |rs| == 2 && (rs[1] == Ignored <==> a.lessonSeq == n)
  {
    var s := Initial(n, capacity);
    assert Run(s, []) == (s, []);
    RunOneMore(s, [], Some(a));
    RunOneMore(s, [Some(a)], Some(b));
    assert [] + [Some(a)] == [Some(a)] && [Some(a)] + [Some(b)] == [Some(a), Some(b)];
    hide Run;
    SecondOfOneId(s, a, b);
  }

  lemma SecondOfOneId(s: State, a: Message, b: Message)
    requires s == Initial(s.nextSeq, s.maxPending) && s.nextSeq > 0 && s.maxPending > 0 && a.messageId == b.messageId != ""
    requires a.lessonSeq >= s.nextSeq && b.lessonSeq >= s.nextSeq && a.lessonSeq != b.lessonSeq
    ensures PushStep(PushStep(s, Some(a)).0, Some(b)).1 == Ignored <==> a.lessonSeq == s.nextSeq
  {
    if a.lessonSeq == s.nextSeq {
      assert PushStep(s, Some(a)).0 == Show(s, a);
    } else {
      assert PushStep(s, Some(a)).0 == Hold(s, a);
    }
  }

  /** Started at 0, the buffer adopts the first sequenced number it is given. */
  lemma StartsAtFirstNumber(s: State, m: Message)
    requires s.nextSeq == 0 && m.lessonSeq > 0 && m.messageId != "" && m.messageId !in s.seen
    ensures PushStep(s, Some(m)) == PushStep(s.(nextSeq := m.lessonSeq), Some(m))
    ensures s.pending == map[] ==> PushStep(s, Some(m)).0.nextSeq == m.lessonSeq + 1
  {
  }

  /** The ids of the messages without a number. */
  function UnnumberedIds(inputs: Inputs): set<string> {
    set o | o in inputs && o.Some? && o.value.messageId != "" && o.value.lessonSeq <= 0 :: o.value.messageId
  }

  /** Input j is a numbered message, and no unnumbered one before it has its id. */
  predicate Adopts(inputs: Inputs, j: int) {
    && 0 <= j < |inputs| && inputs[j].Some? && inputs[j].value.messageId != "" && inputs[j].value.lessonSeq > 0
    && inputs[j].value.messageId !in UnnumberedIds(inputs[..j])
  }

  /** Input i is the first of these. */
  predicate AdoptsFirst(inputs: Inputs, i: int) {
    Adopts(inputs, i) && forall j :: 0 <= j < i ==> !Adopts(inputs, j)
  }

  lemma UnnumberedOneMore(inputs: Inputs)
    requires inputs != []
    ensures var k := |inputs| - 1;
            UnnumberedIds(inputs) == UnnumberedIds(inputs[..k]) +
              (if inputs[k].Some? && inputs[k].value.messageId != "" && inputs[k].value.lessonSeq <= 0
               then {inputs[k].value.messageId} else {})
  {
    var k := |inputs| - 1;
    assert inputs == inputs[..k] + [inputs[k]];
  }

  /** As long as no such input has come, a buffer started at 0 does what one started at any n
      does: it shows the messages without a number, and holds nothing. */
  lemma {:induction false} BeforeAdopting(n: int, capacity: int, inputs: Inputs)
    requires n > 0 && forall j :: 0 <= j < |inputs| ==> !Adopts(inputs, j)
    ensures var (s, rs) := Run(Initial(0, capacity), inputs);
            && s.nextSeq == 0 && s.pending == map[] && s.gaps == [] && s.seen == UnnumberedIds(inputs)
            && Run(Initial(n, capacity), inputs) == (s.(nextSeq := n), rs)
  {
    if inputs != [] {
      var k := |inputs| - 1;
      assert forall j :: 0 <= j < k ==> inputs[..k][..j] == inputs[..j];
      forall j | 0 <= j < k ensures !Adopts(inputs[..k], j) { assert !Adopts(inputs, j); }
      BeforeAdopting(n, capacity, inputs[..k]);
      UnnumberedOneMore(inputs);
      assert !Adopts(inputs, k);
      hide UnnumberedIds, Drain, Run;
      RunsOn(0, capacity, inputs);
      RunsOn(n, capacity, inputs);
    }
  }

  lemma RunsOn(n: int, capacity: int, inputs: Inputs)
    requires inputs != []
    ensures var (s, rs) := Run(Initial(n, capacity), inputs[..|inputs| - 1]);
            var (t, r) := PushStep(s, inputs[|inputs| - 1]);
            Run(Initial(n, capacity), inputs) == (t, rs + [r])
  {
    hide PushStep;
  }

  /** Started at 0, over every run: the buffer does exactly what one started at the number of
      the first numbered message does, messages without a number before it included. */
  lemma {:induction false} StartsAtFirstNumberRun(capacity: int, inputs: Inputs, i: nat)
    requires AdoptsFirst(inputs, i)
    ensures Run(Initial(0, capacity), inputs) == Run(Initial(inputs[i].value.lessonSeq, capacity), inputs)
  {
    var k, n := |inputs| - 1, inputs[i].value.lessonSeq;
    assert forall j :: 0 <= j <= k ==> inputs[..k][..j] == inputs[..j];
    RunsOn(0, capacity, inputs);
    RunsOn(n, capacity, inputs);
    if i < k {
      forall j | 0 <= j <= i ensures Adopts(inputs[..k], j) <==> Adopts(inputs, j) { }
      StartsAtFirstNumberRun(capacity, inputs[..k], i);
    } else {
      forall j | 0 <= j < k ensures !Adopts(inputs[..k], j) { assert !Adopts(inputs, j); }
      BeforeAdopting(n, capacity, inputs[..k]);
      StartsAtFirstNumber(Run(Initial(0, capacity), inputs[..k]).0, inputs[k].value);
    }
    hide Run, UnnumberedIds, PushStep;
  }

  // ----------------------------------------------------------------- convergence

  /** `segment` is a block of messages numbered n, n+1, ... . */
  ghost predicate Numbered(n: int, segment: seq<Message>) {
    forall i :: 0 <= i < |segment| ==> segment[i].lessonSeq == n + i && segment[i].messageId != ""
  }

  /** The inputs deliver every message of the block at least once, in any order, mixed with
      nothing but older messages. */
  ghost predicate Delivers(n: int, segment: seq<Message>, inputs: Inputs) {
    && (forall m :: m in segment ==> m in Given(inputs))
    && OnlyBlockOrStale(n, segment, inputs)
  }

  ghost predicate OnlyBlockOrStale(n: int, segment: seq<Message>, inputs: Inputs) {
    forall o :: o in inputs ==>
      && o.Some? && o.value.messageId != ""
      && (o.value in segment || 0 < o.value.lessonSeq < n)
  }

  lemma {:induction false} BoundedSize(s: set<int>, lo: int, hi: int)
    requires lo <= hi && forall k :: k in s ==> lo <= k < hi
    ensures |s| <= hi - lo
    decreases hi - lo
  {
    if lo < hi {
      BoundedSize(s - {lo}, lo + 1, hi);
      assert s <= (s - {lo}) + {lo};
      SubsetSize(s, (s - {lo}) + {lo});
    } else {
      assert s == {};
    }
  }

  /** Only block messages were taken, each under its own number. */
  ghost predicate OnlyBlock(sp: Spec, n: int, segment: seq<Message>) {
    && sp.first == n && sp.loose == []
    && (forall k :: k in sp.accepted ==> n <= k < n + |segment| && sp.accepted[k] == segment[k - n])
  }

  /** Nothing overflows, nothing loose is shown, and only block messages are accepted. */
  lemma {:induction false} BlockRun(n: int, capacity: int, segment: seq<Message>, inputs: Inputs)
    requires n > 0 && Numbered(n, segment) && capacity >= |segment| - 1
    requires IdFixesSeq(Given(inputs))
    requires OnlyBlockOrStale(n, segment, inputs)
    ensures var (sp, rs) := SpecRun(Spec(n, capacity, map[], []), inputs);
            && Full !in rs && sp.capacity == capacity && OnlyBlock(sp, n, segment)
            && (forall m :: m in Given(inputs) && m in segment ==> m.lessonSeq in sp.accepted)
  {
    if inputs != [] {
      var k := |inputs| - 1;
      var before, m := inputs[..k], inputs[k].value;
      assert inputs[k] in inputs;
      assert Given(inputs) == Given(before) + {m};
      BlockRun(n, capacity, segment, before);
      var (tp, ts) := SpecRun(Spec(n, capacity, map[], []), before);
      hide OnlyBlock, SpecPush, IdFixesSeq;
      BlockPush(tp, n, segment, m);
    }
  }

  /** One message of the block, or a stale one. */
  lemma BlockPush(tp: Spec, n: int, segment: seq<Message>, m: Message)
    requires n > 0 && Numbered(n, segment) && tp.capacity >= |segment| - 1 && OnlyBlock(tp, n, segment)
    requires m.messageId != "" && (m in segment || 0 < m.lessonSeq < n)
    ensures var (up, r) := SpecPush(tp, Some(m));
            && r != Full && up.capacity == tp.capacity && OnlyBlock(up, n, segment)
            && (m in segment ==> m.lessonSeq in up.accepted) && tp.accepted.Keys <= up.accepted.Keys
  {
    if m in segment {
      var i :| 0 <= i < |segment| && segment[i] == m;
      assert segment[m.lessonSeq - n] == m;
      if m.lessonSeq !in tp.accepted && !InOrder(tp, m.lessonSeq) {
        HeldFits(tp, m.lessonSeq, n + |segment|);
      }
    }
    hide Held, InOrder;
  }

  /** With the number k free and a hole below it, at most the others but two are held. */
  lemma HeldFits(sp: Spec, k: int, end: int)
    requires sp.first < k < end && k !in sp.accepted && !InOrder(sp, k)
    requires forall j :: j in sp.accepted ==> sp.first <= j < end
    ensures |Held(sp)| < end - sp.first - 1
  {
    var h := Held(sp);
    assert sp.first !in h;
    BoundedSize(h + {k}, sp.first + 1, end);
    assert |h + {k}| == |h| + 1;
  }

  /** MAIN RESULT: every delivery order, with repetitions and stale messages mixed in, of
      the block n .. n+k-1 never throws and ends in the same state: the block shown once
      in order, nothing held, no gap outstanding. */
  lemma Converges(n: int, capacity: int, segment: seq<Message>, inputs: Inputs)
    requires n > 0 && Numbered(n, segment) && Delivers(n, segment, inputs)
    requires IdFixesSeq(Given(inputs)) && capacity >= |segment| - 1
    ensures var (s, rs) := Run(Initial(n, capacity), inputs);
            && s.shown == segment && s.nextSeq == n + |segment|
            && s.pending == map[] && !s.gapRequested
            && Full !in rs
  {
    RunRefines(n, capacity, inputs);
    BlockRun(n, capacity, segment, inputs);
    var sp := SpecRun(Spec(n, capacity, map[], []), inputs).0;
    AllAccepted(sp, n, segment, Given(inputs));
    WholeBlockShown(sp, Run(Initial(n, capacity), inputs).0, segment);
  }

  /** And only then: fed nothing but messages of the block and stale ones, the buffer never
      throws, and it shows the whole block if and only if it was given all of it. */
  lemma ConvergesIff(n: int, capacity: int, segment: seq<Message>, inputs: Inputs)
    requires n > 0 && Numbered(n, segment) && OnlyBlockOrStale(n, segment, inputs)
    requires IdFixesSeq(Given(inputs)) && capacity >= |segment| - 1
    ensures var (s, rs) := Run(Initial(n, capacity), inputs);
            && Full !in rs
            && (s.shown == segment <==> forall m :: m in segment ==> m in Given(inputs))
            && (s.shown == segment ==> s.nextSeq == n + |segment| && s.pending == map[] && !s.gapRequested)
  {
    RunRefines(n, capacity, inputs);
    BlockRun(n, capacity, segment, inputs);
    var s := Run(Initial(n, capacity), inputs).0;
    var sp := SpecRun(Spec(n, capacity, map[], []), inputs).0;
    ShownWasGiven(sp, s, segment, Given(inputs));
    hide Run, SpecRun, Refines, OnlyBlock, IdFixesSeq, Numbered;
    if forall m :: m in segment ==> m in Given(inputs) { Converges(n, capacity, segment, inputs); }
  }

  lemma ShownWasGiven(sp: Spec, s: State, segment: seq<Message>, given: set<Message>)
    requires Refines(sp, s) && Taken(sp) <= given && OnlyBlock(sp, sp.first, segment)
    ensures forall m :: m in s.shown ==> m in given
  {
    OnlySequenced(s.shown);
    RefinedOutput(sp, s, given);
  }

  lemma AllAccepted(sp: Spec, n: int, segment: seq<Message>, given: set<Message>)
    requires Numbered(n, segment)
    requires forall m :: m in segment ==> m in given
    requires forall m :: m in given && m in segment ==> m.lessonSeq in sp.accepted
    ensures forall k :: n <= k < n + |segment| ==> k in sp.accepted
  {
    forall k | n <= k < n + |segment| ensures k in sp.accepted {
      assert segment[k - n] in segment;
    }
  }

  lemma WholeBlockTaken(sp: Spec, s: State, end: int)
    requires Refines(sp, s) && sp.first <= end
    requires forall k :: sp.first <= k < end ==> k in sp.accepted
    requires forall k :: k in sp.accepted ==> k < end
    ensures s.nextSeq == end && s.pending == map[] && !s.gapRequested
  {
    assert forall k :: k in s.pending ==> k in sp.accepted;
    LeastMissing(sp.accepted, sp.first, s.nextSeq, end);
  }

  lemma LeastMissing(accepted: map<int, Message>, first: int, next: int, end: int)
    requires first <= next && next !in accepted && forall k :: first <= k < next ==> k in accepted
    requires first <= end && end !in accepted && forall k :: first <= k < end ==> k in accepted
    ensures next == end
  {
  }

  lemma WholeBlockShown(sp: Spec, s: State, segment: seq<Message>)
    requires Refines(sp, s)
    requires OnlyBlock(sp, sp.first, segment)
    requires forall k :: sp.first <= k < sp.first + |segment| ==> k in sp.accepted
    ensures s.shown == segment && s.nextSeq == sp.first + |segment|
    ensures s.pending == map[] && !s.gapRequested
  {
    WholeBlockTaken(sp, s, sp.first + |segment|);
    SegmentIs(sp.accepted, sp.first, segment);
    OnlySequenced(s.shown);
  }

  lemma SegmentIs(a: map<int, Message>, n: int, segment: seq<Message>)
    requires forall k :: n <= k < n + |segment| ==> k in a && a[k] == segment[k - n]
    ensures Segment(a, n, n + |segment|) == segment
  {
    var out := Segment(a, n, n + |segment|);
    SegmentIndex(a, n, n + |segment|);
    forall i | 0 <= i < |segment| ensures out[i] == segment[i] {
      assert out[(n + i) - n] == a[n + i];
    }
  }

  lemma {:induction false} OnlySequenced(ms: seq<Message>)
    requires Loose(ms) == []
    ensures Sequenced(ms) == ms
  {
    if ms != [] {
      var front, m := ms[..|ms| - 1], ms[|ms| - 1];
      assert ms == front + [m];
      assert Loose(ms) == Loose(front) + (if m.lessonSeq > 0 then [] else [m]);
      assert Loose(front) == [];
      OnlySequenced(front);
    }
  }
}
