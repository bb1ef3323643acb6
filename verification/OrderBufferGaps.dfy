/** The gap requests of the ordering buffer, over whole runs. */
module OrderBufferGaps {
  import opened Wrappers
  import opened ChatMessages
  import opened OrderBuffer
  import opened OrderBufferRuns
  import opened Sets

  /** k is missing: below something held, but neither shown nor held. */
  predicate Missing(s: State, k: int) {
    s.nextSeq <= k && k !in s.pending && exists p :: p in s.pending && k < p
  }

  predicate Asked(s: State, k: int) {
    exists g :: g in s.gaps && g.0 <= k <= g.1
  }

  /** Every missing number has been asked for. */
  ghost predicate Covered(s: State) {
    forall k {:trigger Missing(s, k)} :: Missing(s, k) ==> Asked(s, k)
  }

  /** A request is outstanding exactly while something is held; what is held lies above nextSeq;
      and every range asked for ends below nextSeq or just below a number that is held. */
  ghost predicate RequestShape(s: State) {
    && (s.gapRequested <==> s.pending != map[])
    && (forall p :: p in s.pending ==> 0 < p && s.nextSeq < p)
    && (s.nextSeq == 0 ==> s.pending == map[])
    && (forall g :: g in s.gaps ==> EndsBelow(s, g.1 + 1))
  }

  predicate EndsBelow(s: State, end: int) {
    end <= s.nextSeq || end in s.pending
  }

  /** The push that matters: it is accepted while something is held, and leaves a hole above
      all of that. */
  predicate OpensSecondHole(s: State, incoming: Option<Message>) {
    && incoming.Some? && PushStep(s, incoming).1 == Accepted
    && s.pending != map[] && forall p :: p in s.pending ==> p + 1 < incoming.value.lessonSeq
  }

  /** A message numbered k is taken by this push. */
  predicate Takes(s: State, incoming: Option<Message>, k: int) {
    incoming.Some? && incoming.value.lessonSeq == k > 0 && PushStep(s, incoming).1 == Accepted
  }

  // ---------------------------------------------------------------- what one push does

  lemma {:induction false} DrainKeepsGaps(s: State)
    ensures Drain(s).gaps == s.gaps && Drain(s).gapRequested == s.gapRequested
    ensures Drain(s).nextSeq >= s.nextSeq && Drain(s).nextSeq !in Drain(s).pending
    ensures forall k :: k in Drain(s).pending ==> k in s.pending
    ensures forall k :: k in s.pending && k >= Drain(s).nextSeq ==> k in Drain(s).pending
    ensures forall k :: s.nextSeq <= k && k !in s.pending ==> Drain(s).nextSeq <= k
    ensures s.pending == map[] ==> Drain(s) == s
    decreases |s.pending|
  {
    if s.nextSeq in s.pending {
      DrainKeepsGaps(Show(s.(pending := s.pending - {s.nextSeq}), s.pending[s.nextSeq]));
    }
  }

  lemma {:induction false} DrainKeepsOrder(s: State)
    requires forall p :: p in s.pending ==> s.nextSeq <= p
    ensures forall p :: p in Drain(s).pending ==> Drain(s).nextSeq < p
    decreases |s.pending|
  {
    if s.nextSeq in s.pending {
      DrainKeepsOrder(Show(s.(pending := s.pending - {s.nextSeq}), s.pending[s.nextSeq]));
    }
  }

  /** The state in which the message is compared: a start at 0 adopts its number. */
  function Adopting(s: State, k: int): State {
    if s.nextSeq == 0 then s.(nextSeq := k) else s
  }

  /** A message that is not accepted changes nothing; one that is accepted is loose, or the
      next one, or held. */
  lemma PushCases(s: State, m: Message)
    requires RequestShape(s)
    ensures var (t, r) := PushStep(s, Some(m));
            var u := Adopting(s, m.lessonSeq);
            if r != Accepted then t == s
            else if m.lessonSeq <= 0 then t == s.(seen := t.seen, shown := t.shown)
            else if m.lessonSeq == u.nextSeq then t == Emit(u, m)
            else t == Hold(u, m) && u == s && m.lessonSeq > s.nextSeq
  {
    hide Drain;
  }

  lemma EmitKeepsShape(s: State, m: Message)
    requires RequestShape(s) && s.nextSeq > 0
    ensures RequestShape(Emit(s, m))
  {
    var u := Show(s, m);
    DrainKeepsGaps(u);
    DrainKeepsOrder(u);
    hide Drain;
    var t := Emit(s, m);
    forall g | g in t.gaps ensures EndsBelow(t, g.1 + 1) {
      assert EndsBelow(s, g.1 + 1);
    }
  }

  lemma ShapeStep(s: State, incoming: Option<Message>)
    requires RequestShape(s)
    ensures RequestShape(PushStep(s, incoming).0)
  {
    if incoming.Some? {
      var m := incoming.value;
      PushCases(s, m);
      var u := Adopting(s, m.lessonSeq);
      hide PushStep, Emit;
      assert forall g :: g in s.gaps ==> EndsBelow(s, g.1 + 1);
      if u.nextSeq > 0 { EmitKeepsShape(u, m); }
    }
  }

  /** Over every run, whatever the start, and ids reused or not: the shape of the requests. */
  lemma {:induction false} RunKeepsRequestShape(n: int, capacity: int, inputs: Inputs)
    ensures RequestShape(Run(Initial(n, capacity), inputs).0)
  {
    if inputs != [] {
      RunKeepsRequestShape(n, capacity, inputs[..|inputs| - 1]);
      ShapeStep(Run(Initial(n, capacity), inputs[..|inputs| - 1]).0, inputs[|inputs| - 1]);
    }
  }

  /** A push asks for at most one range, only when nothing was held, and every number in
      the range has been neither shown nor held. */
  lemma GapAsksOnlyForMissing(sp: Spec, s: State, m: Message)
    requires Refines(sp, s) && PushStep(s, Some(m)).0.gaps != s.gaps
    ensures var t := PushStep(s, Some(m)).0;
            && s.pending == map[] && t.pending == map[m.lessonSeq := m] && t.nextSeq == s.nextSeq < m.lessonSeq
            && t.gaps == s.gaps + [(s.nextSeq, m.lessonSeq - 1)]
            && t.shown == s.shown
    ensures forall k :: s.nextSeq <= k < m.lessonSeq ==> k !in sp.accepted
  {
    DrainKeepsGaps(Show(s, m));
    assert PushStep(s, Some(m)).0 == Hold(s, m);
    forall k | s.nextSeq < k && k in sp.accepted ensures k in s.pending {
    }
  }

  // ------------------------------------------------------------ when all is asked for

  /** With every missing number asked for, a push leaves it so if and only if it opens no
      second hole. */
  lemma CoverageStep(s: State, incoming: Option<Message>)
    requires RequestShape(s) && Covered(s)
    ensures Covered(PushStep(s, incoming).0) <==> !OpensSecondHole(s, incoming)
  {
    if PushStep(s, incoming).1 == Accepted && incoming.value.lessonSeq > 0 {
      var m := incoming.value;
      PushCases(s, m);
      var u := Adopting(s, m.lessonSeq);
      hide PushStep, Emit, Hold;
      if m.lessonSeq > u.nextSeq {
        HoldCoverage(s, m);
      } else {
        assert forall k :: Missing(u, k) ==> Missing(s, k);
        assert forall k :: Asked(s, k) ==> Asked(u, k);
        EmitKeepsCoverage(u, m);
        if s.pending != map[] { var p := SomeKey(s.pending); }
      }
    } else {
      StillCovered(s, incoming);
    }
  }

  lemma StillCovered(s: State, incoming: Option<Message>)
    requires RequestShape(s) && Covered(s)
    requires incoming.None? || PushStep(s, incoming).1 != Accepted || incoming.value.lessonSeq <= 0
    ensures Covered(PushStep(s, incoming).0) && !OpensSecondHole(s, incoming)
  {
    if incoming.Some? { PushCases(s, incoming.value); }
    var t := PushStep(s, incoming).0;
    hide PushStep;
    forall k | Missing(t, k) ensures Asked(t, k) {
      assert Missing(s, k) && Asked(s, k);
    }
    if s.pending != map[] { var p := SomeKey(s.pending); }
  }

  lemma EmitKeepsCoverage(s: State, m: Message)
    requires Covered(s) && m.lessonSeq == s.nextSeq
    ensures Covered(Emit(s, m))
  {
    DrainKeepsGaps(Show(s, m));
    var t := Emit(s, m);
    forall k | Missing(t, k) ensures Asked(t, k) {
      assert Missing(s, k) && Asked(s, k);
    }
  }

  lemma HoldCoverage(s: State, m: Message)
    requires RequestShape(s) && Covered(s) && m.lessonSeq > s.nextSeq
    ensures Covered(Hold(s, m)) <==> s.pending == map[] || exists p :: p in s.pending && m.lessonSeq <= p + 1
  {
    var t := Hold(s, m);
    if s.pending == map[] {
      forall k | Missing(t, k) ensures Asked(t, k) {
        assert (s.nextSeq, m.lessonSeq - 1) in t.gaps;
      }
    } else if p :| p in s.pending && m.lessonSeq <= p + 1 {
      forall k | Missing(t, k) ensures Asked(t, k) {
        assert Missing(s, k) && Asked(s, k);
      }
    } else {
      SecondHoleIsNotAsked(s, m);
    }
  }

  /** The number just below the one held is missing, and no range reaches it. */
  lemma SecondHoleIsNotAsked(s: State, m: Message)
    requires RequestShape(s) && s.pending != map[] && forall p :: p in s.pending ==> p + 1 < m.lessonSeq
    ensures Missing(Hold(s, m), m.lessonSeq - 1) && !Asked(Hold(s, m), m.lessonSeq - 1)
  {
    var t, k := Hold(s, m), m.lessonSeq - 1;
    assert m.lessonSeq in t.pending;
    var p := SomeKey(s.pending);
    forall g | g in t.gaps ensures g.1 < k {
      assert EndsBelow(s, g.1 + 1);
    }
  }

  /** The buffer after the first j inputs. */
  function After(n: int, capacity: int, inputs: Inputs, j: nat): State
    requires j <= |inputs|
  {
    Run(Initial(n, capacity), inputs[..j]).0
  }

  lemma AfterOneMore(n: int, capacity: int, inputs: Inputs, j: nat)
    requires j < |inputs|
    ensures After(n, capacity, inputs, j + 1) == PushStep(After(n, capacity, inputs, j), inputs[j]).0
  {
    assert inputs[..j + 1][..j] == inputs[..j];
  }

  /** MAIN RESULT on gap requests: over every run, every missing number has been asked for at
      every moment if and only if no accepted push opened a second hole. */
  lemma {:induction false} AlwaysCoveredIffNoSecondHole(n: int, capacity: int, inputs: Inputs, j: nat)
    requires j <= |inputs|
    ensures (forall i :: 0 <= i <= j ==> Covered(After(n, capacity, inputs, i)))
            <==> (forall i :: 0 <= i < j ==> !OpensSecondHole(After(n, capacity, inputs, i), inputs[i]))
  {
    hide After, OpensSecondHole, Covered, RequestShape;
    if j == 0 {
      StartsCovered(n, capacity, inputs);
    } else {
      AlwaysCoveredIffNoSecondHole(n, capacity, inputs, j - 1);
      AfterOneMore(n, capacity, inputs, j - 1);
      ShapeAfter(n, capacity, inputs, j - 1);
      if Covered(After(n, capacity, inputs, j - 1)) {
        CoverageStep(After(n, capacity, inputs, j - 1), inputs[j - 1]);
      }
    }
  }

  lemma StartsCovered(n: int, capacity: int, inputs: Inputs)
    ensures Covered(After(n, capacity, inputs, 0))
  {
    assert inputs[..0] == [];
  }

  lemma ShapeAfter(n: int, capacity: int, inputs: Inputs, j: nat)
    requires j <= |inputs|
    ensures RequestShape(After(n, capacity, inputs, j))
  {
    RunKeepsRequestShape(n, capacity, inputs[..j]);
  }

  // ------------------------------------------------------------ what is never asked for

  /** While a message numbered k is not taken, k stays missing and nothing is asked for. */
  lemma MissingStays(s: State, incoming: Option<Message>, k: int)
    requires RequestShape(s) && Missing(s, k) && !Takes(s, incoming, k)
    ensures var t := PushStep(s, incoming).0;
            Missing(t, k) && t.gaps == s.gaps
  {
    if incoming.Some? {
      PushCases(s, incoming.value);
      var p :| p in s.pending && k < p;
      DrainKeepsGaps(Show(s, incoming.value));
      assert p in PushStep(s, incoming).0.pending;
    }
  }

  /** MAIN RESULT on what is lost: a number that is missing and was not asked for is never
      asked for, however the run goes on, until a message that carries it is accepted; and
      the buffer does not pass it. */
  lemma {:induction false} NotAskedUntilItArrives(n: int, capacity: int, inputs: Inputs, start: nat, end: nat, k: int)
    requires start <= end <= |inputs|
    requires Missing(After(n, capacity, inputs, start), k) && !Asked(After(n, capacity, inputs, start), k)
    requires forall i :: start <= i < end ==> !Takes(After(n, capacity, inputs, i), inputs[i], k)
    ensures Missing(After(n, capacity, inputs, end), k) && !Asked(After(n, capacity, inputs, end), k)
    ensures After(n, capacity, inputs, end).gaps == After(n, capacity, inputs, start).gaps
    decreases end
  {
    if start < end {
      hide After, Missing, Takes, RequestShape;
      NotAskedUntilItArrives(n, capacity, inputs, start, end - 1, k);
      AfterOneMore(n, capacity, inputs, end - 1);
      ShapeAfter(n, capacity, inputs, end - 1);
      MissingStays(After(n, capacity, inputs, end - 1), inputs[end - 1], k);
    }
  }

  /** So the number below the one that opened a second hole is not asked for until it arrives. */
  lemma SecondHoleWaits(n: int, capacity: int, inputs: Inputs, start: nat, end: nat)
    requires start < end <= |inputs| && OpensSecondHole(After(n, capacity, inputs, start), inputs[start])
    requires forall i :: start < i < end ==> !Takes(After(n, capacity, inputs, i), inputs[i], inputs[start].value.lessonSeq - 1)
    ensures var t, k := After(n, capacity, inputs, end), inputs[start].value.lessonSeq - 1;
            Missing(t, k) && !Asked(t, k)
  {
    var s, m := After(n, capacity, inputs, start), inputs[start].value;
    hide After;
    ShapeAfter(n, capacity, inputs, start);
    AfterOneMore(n, capacity, inputs, start);
    SecondHoleIsHeld(s, m);
    hide PushStep, Hold, OpensSecondHole, Missing, Asked;
    NotAskedUntilItArrives(n, capacity, inputs, start + 1, end, m.lessonSeq - 1);
  }

  lemma SecondHoleIsHeld(s: State, m: Message)
    requires RequestShape(s) && OpensSecondHole(s, Some(m))
    ensures var t := PushStep(s, Some(m)).0;
            Missing(t, m.lessonSeq - 1) && !Asked(t, m.lessonSeq - 1)
  {
    PushCases(s, m);
    var p := SomeKey(s.pending);
    SecondHoleIsNotAsked(s, m);
  }

  /** Concretely: after 3, 5, 1, 2 the buffer waits for 4, holds 5, and 4 was never asked for. */
  lemma SecondGapNeverRequested()
    ensures var inputs := [Some(Message("c", 3, "")), Some(Message("e", 5, "")),
                           Some(Message("a", 1, "")), Some(Message("b", 2, ""))];
            var s := Run(Initial(1, 256), inputs).0;
            s.nextSeq == 4 && s.pending.Keys == {5} && s.gapRequested && s.gaps == [(1, 2)]
  {
    var a, b, c, e := Message("a", 1, ""), Message("b", 2, ""), Message("c", 3, ""), Message("e", 5, "");
    var s2 := State(1, 256, map[3 := c, 5 := e], {}, true, [], [(1, 2)]);
    TwoHeld(c, e, s2);
    RunOneMore(Initial(1, 256), [Some(c), Some(e)], Some(a));
    RunOneMore(Initial(1, 256), [Some(c), Some(e), Some(a)], Some(b));
    assert [Some(c), Some(e)] + [Some(a)] == [Some(c), Some(e), Some(a)];
    assert [Some(c), Some(e), Some(a)] + [Some(b)] == [Some(c), Some(e), Some(a), Some(b)];
    var s3 := Show(s2, a);
    assert Emit(s2, a) == s3;
    StopsBeforeFour(s3, b, c, e);
  }

  lemma TwoHeld(c: Message, e: Message, s: State)
    requires c.lessonSeq == 3 && e.lessonSeq == 5 && c.messageId != "" && e.messageId != ""
    requires s == State(1, 256, map[3 := c, 5 := e], {}, true, [], [(1, 2)])
    ensures Run(Initial(1, 256), [Some(c), Some(e)]).0 == s
  {
    hide Run, PushStep, Hold, Initial;
    var s0 := Initial(1, 256);
    HeldTwice(c, e);
    NothingRun(s0);
    RunOneMore(s0, [], Some(c));
    RunOneMore(s0, [Some(c)], Some(e));
    assert [] + [Some(c)] == [Some(c)] && [Some(c)] + [Some(e)] == [Some(c), Some(e)];
  }

  lemma NothingRun(s: State)
    ensures Run(s, []) == (s, [])
  {
  }

  lemma HeldTwice(c: Message, e: Message)
    requires c.lessonSeq == 3 && e.lessonSeq == 5 && c.messageId != "" && e.messageId != ""
    ensures var t := PushStep(Initial(1, 256), Some(c)).0;
            PushStep(t, Some(e)).0 == State(1, 256, map[3 := c, 5 := e], {}, true, [], [(1, 2)])
  {
    hide PushStep;
    var s0 := Initial(1, 256);
    HoldOne(s0, c);
    HoldOne(Hold(s0, c), e);
    assert Hold(s0, c).pending == map[3 := c] && Hold(s0, c).gaps == [(1, 2)];
    assert Hold(Hold(s0, c), e).pending == map[3 := c, 5 := e];
  }

  lemma HoldOne(s: State, m: Message)
    requires m.messageId != "" && m.messageId !in s.seen && 0 < s.nextSeq < m.lessonSeq && m.lessonSeq !in s.pending
    requires |s.pending| < s.maxPending
    ensures PushStep(s, Some(m)) == (Hold(s, m), Accepted)
  {
    hide Drain;
  }

  lemma StopsBeforeFour(s: State, b: Message, c: Message, e: Message)
    requires s.nextSeq == 2 && s.pending == map[3 := c, 5 := e]
    requires b.lessonSeq == 2 && b.messageId !in s.seen && b.messageId != "" && s.gapRequested
    ensures var t := PushStep(s, Some(b)).0;
            t.nextSeq == 4 && t.pending.Keys == {5} && t.gapRequested && t.gaps == s.gaps
  {
    var s4 := Show(s, b);
    var s5 := Show(s4.(pending := s4.pending - {3}), c);
    assert s5.pending == map[5 := e];
    assert Drain(s4) == Drain(s5) == s5;
  }
}
