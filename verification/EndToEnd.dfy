/** Server and browser together: what the hub places on the send queue, fed into the
    ordering buffer. */
module EndToEnd {
  import opened Wrappers
  import opened ChatMessages
  import opened Delivery
  import opened Provenance
  import opened Sets
  import K = ChatClient
  import C = ChatClientRuns
  import Q = ChatQueue
  import O = OrderBuffer
  import B = OrderBufferRuns
  import H = OrderBufferHoles

  /** What the browser hands to its buffer: the chat messages among the payloads sent. */
  function Feed(placed: seq<K.Item>): B.Inputs {
    if placed == [] then [] else
    var x := placed[|placed| - 1];
    Feed(placed[..|placed| - 1]) + (if x.origin.Control? then [] else [Some(x.payload)])
  }

  /** Entry i is a chat message that hands o to the buffer. */
  predicate Feeds(placed: seq<K.Item>, i: int, o: Option<Message>) {
    0 <= i < |placed| && !placed[i].origin.Control? && o == Some(placed[i].payload)
  }

  lemma FeedLast(placed: seq<K.Item>, o: Option<Message>)
    requires placed != []
    ensures o in Feed(placed) <==> o in Feed(placed[..|placed| - 1]) || Feeds(placed, |placed| - 1, o)
  {
  }

  lemma FeedsPrefix(placed: seq<K.Item>, i: int, o: Option<Message>)
    requires 0 <= i < |placed| - 1
    ensures Feeds(placed[..|placed| - 1], i, o) <==> Feeds(placed, i, o)
  {
  }

  lemma {:induction false} FeedElements(placed: seq<K.Item>, o: Option<Message>)
    ensures o in Feed(placed) <==> exists i :: Feeds(placed, i, o)
  {
    if placed != [] {
      hide Feed;
      var k := |placed| - 1;
      FeedElements(placed[..k], o);
      FeedLast(placed, o);
      if i :| Feeds(placed[..k], i, o) { FeedsPrefix(placed, i, o); }
      if i :| Feeds(placed, i, o) {
        if i < k { FeedsPrefix(placed, i, o); }
      }
    }
  }

  /** The browser's buffer, started at n, after everything the hub has placed so far. */
  function Browser(s: State, n: int, capacity: int): O.State {
    B.Run(O.Initial(n, capacity), Feed(s.client.s.placed)).0
  }

  ghost predicate Overflowed(s: State, n: int, capacity: int) {
    O.Full in B.Run(O.Initial(n, capacity), Feed(s.client.s.placed)).1
  }

  // ------------------------------------------------------------------- what is fed

  /** No lesson number from n on is given to two stored messages; there may be holes, and
      messages that never got a number. */
  ghost predicate DistinctNumbers(log: set<Entry>, n: int) {
    forall x, y :: x in log && y in log && x.msg.lessonSeq == y.msg.lessonSeq >= n ==> x == y
  }

  function LogNumbers(log: set<Entry>): set<int> {
    set x | x in log && x.msg.lessonSeq > 0 :: x.msg.lessonSeq
  }

  function PlacedNumbers(s: State): set<int> {
    set x | x in s.log && WasPlaced(s, x) && x.msg.lessonSeq > 0 :: x.msg.lessonSeq
  }

  lemma FedIsLogged(s: State, m: Message) returns (x: Entry)
    requires Sourced(s) && m in B.Given(Feed(s.client.s.placed))
    ensures x in s.log && x.msg == m && WasPlaced(s, x)
  {
    FeedElements(s.client.s.placed, Some(m));
    var i :| Feeds(s.client.s.placed, i, Some(m));
    assert ItemOk(s.log, s.client.s.placed[i]);
    x :| x in s.log && x.msg == m;
  }

  lemma PlacedIsFed(s: State, x: Entry)
    requires Sourced(s) && LogOk(s) && x in s.log && WasPlaced(s, x)
    ensures x.msg in B.Given(Feed(s.client.s.placed))
  {
    var item :| item in s.client.s.placed && item.messageId == x.msg.messageId;
    assert ItemOk(s.log, item);
    var y :| y in s.log && y.msg == item.payload;
    assert y == x;
    var i :| 0 <= i < |s.client.s.placed| && s.client.s.placed[i] == item;
    assert Feeds(s.client.s.placed, i, Some(x.msg));
    FeedElements(s.client.s.placed, Some(x.msg));
    assert Some(x.msg) in Feed(s.client.s.placed);
  }

  /** The messages fed are the stored messages placed. */
  lemma FedIffPlaced(s: State, x: Entry)
    requires Sourced(s) && LogOk(s) && x in s.log
    ensures x.msg in B.Given(Feed(s.client.s.placed)) <==> WasPlaced(s, x)
  {
    if x.msg in B.Given(Feed(s.client.s.placed)) {
      var y := FedIsLogged(s, x.msg);
      assert y == x;
    }
    if WasPlaced(s, x) { PlacedIsFed(s, x); }
  }

  lemma FedNumbers(s: State)
    requires Sourced(s) && LogOk(s)
    ensures H.Numbers(B.Given(Feed(s.client.s.placed))) == PlacedNumbers(s) <= LogNumbers(s.log)
  {
    var given := B.Given(Feed(s.client.s.placed));
    hide Sourced, Feed, B.Given, WasPlaced;
    forall k | k in H.Numbers(given) ensures k in PlacedNumbers(s) {
      var m :| m in given && m.lessonSeq == k > 0;
      var x := FedIsLogged(s, m);
    }
    forall k | k in PlacedNumbers(s) ensures k in H.Numbers(given) {
      var x :| x in s.log && WasPlaced(s, x) && x.msg.lessonSeq == k > 0;
      PlacedIsFed(s, x);
    }
  }

  lemma FedIsDistinct(s: State, n: int)
    requires Sourced(s) && LogOk(s) && DistinctNumbers(s.log, n)
    ensures H.Distinct(n, B.Given(Feed(s.client.s.placed)))
  {
    var given := B.Given(Feed(s.client.s.placed));
    hide Sourced, Feed, B.Given;
    forall a, b | a in given && b in given && (a.messageId == b.messageId || a.lessonSeq == b.lessonSeq >= n) ensures a == b {
      var x := FedIsLogged(s, a);
      var y := FedIsLogged(s, b);
    }
  }

  lemma RoomyForLess(n: int, capacity: int, a: set<int>, b: set<int>)
    requires a <= b && H.Roomy(n, capacity, b)
    ensures H.Roomy(n, capacity, a)
  {
    SubsetSize(H.Beyond(a, n), H.Beyond(b, n));
  }

  // -------------------------------------------------------------- at every moment

  /** b shows the placed messages that carry no number or one from n up to the first number no
      placed message carries, each once, the numbered ones in order; it holds those beyond. */
  ghost predicate ShowsPlaced(s: State, n: int, b: O.State) {
    && H.FirstHole(n, PlacedNumbers(s), b.nextSeq)
    && (forall x :: x in s.log ==>
          (x.msg in b.shown <==> WasPlaced(s, x) && (x.msg.lessonSeq <= 0 || n <= x.msg.lessonSeq < b.nextSeq)))
    && (forall m :: m in b.shown ==> exists x :: x in s.log && x.msg == m)
    && H.NoRepeats(b.shown)
    && H.Ascending(n, b.nextSeq, O.Sequenced(b.shown))
    && b.pending.Keys == H.Beyond(PlacedNumbers(s), b.nextSeq)
    && (b.gapRequested <==> b.pending != map[])
  }

  /** MAIN RESULT, end to end, in every reachable state of the protocol: whatever the order and
      the repeats on the send queue, and whatever numbers are missing, the browser's buffer
      does not overflow and shows the messages placed below the first number that no placed
      message carries. */
  lemma ShowsPlacedUpToHole(ss: seq<State>, steps: seq<Step>, n: int, capacity: int)
    requires IsRun(ss, steps) && n > 0
    requires DistinctNumbers(ss[|steps|].log, n) && H.Roomy(n, capacity, LogNumbers(ss[|steps|].log))
    ensures !Overflowed(ss[|steps|], n, capacity)
    ensures ShowsPlaced(ss[|steps|], n, Browser(ss[|steps|], n, capacity))
  {
    RunInv(ss, steps);
    RunSourced(ss, steps);
    hide IsRun, Sourced, DistinctNumbers, H.Roomy, ShowsPlaced, Browser, Overflowed;
    ShowsFedUpToHole(ss[|steps|], n, capacity);
  }

  lemma ShowsFedUpToHole(s: State, n: int, capacity: int)
    requires Sourced(s) && LogOk(s) && n > 0
    requires DistinctNumbers(s.log, n) && H.Roomy(n, capacity, LogNumbers(s.log))
    ensures !Overflowed(s, n, capacity) && ShowsPlaced(s, n, Browser(s, n, capacity))
  {
    FedNumbers(s);
    FedIsDistinct(s, n);
    RoomyForLess(n, capacity, PlacedNumbers(s), LogNumbers(s.log));
    H.EverythingUpToTheHole(n, capacity, Feed(s.client.s.placed));
    ShowsFed(s, n, Browser(s, n, capacity));
    hide Feed, B.Run, DistinctNumbers, H.Roomy, H.Distinct, H.ShowsUpToHole, Sourced, ShowsPlaced;
  }

  lemma ShowsFed(s: State, n: int, b: O.State)
    requires Sourced(s) && LogOk(s) && H.ShowsUpToHole(n, B.Given(Feed(s.client.s.placed)), b)
    ensures ShowsPlaced(s, n, b)
  {
    hide Sourced, Feed, B.Given, WasPlaced, H.FirstHole, H.NoRepeats, O.Sequenced, H.Numbers, H.Beyond, PlacedNumbers;
    FedNumbers(s);
    forall x | x in s.log
      ensures x.msg in b.shown <==> WasPlaced(s, x) && (x.msg.lessonSeq <= 0 || n <= x.msg.lessonSeq < b.nextSeq)
    {
      FedIffPlaced(s, x);
    }
    forall m | m in b.shown ensures exists x :: x in s.log && x.msg == m {
      var x := FedIsLogged(s, m);
    }
  }

  // -------------------------------------------------------------- what has arrived

  /** What the browser has handed to its buffer so far: the payloads the writer has taken, but
      for those that answer the client itself. `labels` says which call sent each. */
  function Received(labels: seq<K.Item>, payloads: seq<Message>): B.Inputs
    requires |payloads| <= |labels|
  {
    if payloads == [] then [] else
    var k := |payloads| - 1;
    Received(labels, payloads[..k]) + (if labels[k].origin.Control? then [] else [Some(payloads[k])])
  }

  /** Over every run of the protocol the writer takes what was placed, in order and unchanged. */
  lemma {:induction false} RunTaken(ss: seq<State>, steps: seq<Step>)
    requires IsRun(ss, steps)
    ensures Q.QueueOk(ss[|steps|].client.s)
  {
    if steps != [] {
      var k := |steps| - 1;
      assert IsRun(ss[..k + 1], steps[..k]);
      RunTaken(ss[..k + 1], steps[..k]);
      ClientPart(ss[k], steps[k]);
      if EventOf(ss[k], steps[k]).Some? { Q.QueueStep(ss[k].client, EventOf(ss[k], steps[k]).value); }
      hide Next, Enabled, C.Next, C.Enabled, Q.QueueOk;
    }
  }

  lemma {:induction false} ReceivedIs(placed: seq<K.Item>, payloads: seq<Message>)
    requires |payloads| <= |placed| && payloads == Q.Payloads(placed)[..|payloads|]
    ensures Received(placed, payloads) == Feed(placed[..|payloads|])
  {
    if payloads != [] {
      var k := |payloads| - 1;
      ReceivedIs(placed, payloads[..k]);
      assert placed[..k + 1][..k] == placed[..k];
      assert payloads[k] == placed[k].payload;
    }
  }

  lemma {:induction false} FeedPrefix(placed: seq<K.Item>, k: nat)
    requires k <= |placed|
    ensures Feed(placed[..k]) <= Feed(placed)
  {
    if k < |placed| {
      FeedPrefix(placed[..|placed| - 1], k);
      assert placed[..|placed| - 1][..k] == placed[..k];
    } else {
      assert placed[..k] == placed;
    }
  }

  /** What the browser has been fed is a prefix of what was placed for it, and all of that once
      the writer has emptied the queue. */
  lemma ReceivedIsPlacedPrefix(ss: seq<State>, steps: seq<Step>)
    requires IsRun(ss, steps)
    ensures var c := ss[|steps|].client.s;
            && |c.taken| <= |c.placed|
            && Received(c.placed, c.taken) == Feed(c.placed[..|c.taken|]) <= Feed(c.placed)
            && (c.send == [] ==> Received(c.placed, c.taken) == Feed(c.placed))
  {
    RunTaken(ss, steps);
    var c := ss[|steps|].client.s;
    assert |Q.Payloads(c.placed)| == |c.taken| + |c.send|;
    assert c.taken == Q.Payloads(c.placed)[..|c.taken|];
    hide IsRun, Q.Payloads;
    ReceivedIs(c.placed, c.taken);
    FeedPrefix(c.placed, |c.taken|);
    if c.send == [] { assert c.placed[..|c.taken|] == c.placed; }
  }

  /** The state as if what still waits on the queue had not been placed. */
  function AsTaken(s: State): State
    requires |s.client.s.taken| <= |s.client.s.placed|
  {
    s.(client := s.client.(s := s.client.s.(placed := s.client.s.placed[..|s.client.s.taken|])))
  }

  lemma TakenIsSourced(s: State)
    requires Sourced(s) && LogOk(s) && |s.client.s.taken| <= |s.client.s.placed|
    ensures Sourced(AsTaken(s)) && LogOk(AsTaken(s)) && AsTaken(s).log == s.log
  {
    assert forall item :: item in AsTaken(s).client.s.placed ==> item in s.client.s.placed;
  }

  /** The same theorem for what the writer has taken so far: this is what the browser shows at
      that moment. */
  lemma ShowsTakenUpToHole(ss: seq<State>, steps: seq<Step>, n: int, capacity: int)
    requires IsRun(ss, steps) && n > 0
    requires DistinctNumbers(ss[|steps|].log, n) && H.Roomy(n, capacity, LogNumbers(ss[|steps|].log))
    ensures var s := ss[|steps|];
            && |s.client.s.taken| <= |s.client.s.placed|
            && var (b, rs) := B.Run(O.Initial(n, capacity), Received(s.client.s.placed, s.client.s.taken));
               O.Full !in rs && ShowsPlaced(AsTaken(s), n, b)
    ensures forall x :: x in ss[|steps|].log ==>
      (WasPlaced(AsTaken(ss[|steps|]), x) <==> x.msg in B.Given(Received(ss[|steps|].client.s.placed, ss[|steps|].client.s.taken)))
  {
    var s := ss[|steps|];
    ReceivedIsPlacedPrefix(ss, steps);
    RunInv(ss, steps);
    RunSourced(ss, steps);
    RunTaken(ss, steps);
    TakenIsSourced(s);
    hide IsRun, Inv, Sourced, LogOk, DistinctNumbers, H.Roomy, ShowsPlaced, Received, Feed, Q.QueueOk, WasPlaced;
    ShowsFedUpToHole(AsTaken(s), n, capacity);
    forall x | x in s.log ensures WasPlaced(AsTaken(s), x) <==> x.msg in B.Given(Received(s.client.s.placed, s.client.s.taken)) {
      FedIffPlaced(AsTaken(s), x);
    }
  }

  // ---------------------------------------------------------------------- at rest

  /** Every entry that was stored after registration has been broadcast, and every broadcast
      is over. */
  ghost predicate Quiet(s: State) {
    s.late <= s.begun && s.casts == map[]
  }

  /** An open client has resumed and the broadcasts have come to rest. */
  ghost predicate AtRest(s: State) {
    Resumed(s) && !s.client.s.closed && Quiet(s)
  }

  /** At rest, what was placed is what ranks after the anchor or was handed over live. */
  lemma PlacedIffReached(ss: seq<State>, steps: seq<Step>, x: Entry)
    requires IsRun(ss, steps) && AtRest(ss[|steps|]) && x in ss[|steps|].log
    ensures WasPlaced(ss[|steps|], x) <==> Reached(ss, steps, ss[|steps|].anchor, x)
  {
    var s := ss[|steps|];
    RunInv(ss, steps);
    if x.key > s.anchor {
      GapFreeResume(ss, steps, x);
    } else if HandedOver(ss, steps, x) {
      HandedOverIsReported(ss, steps, x);
      ReportedIsPlaced(s, x);
    } else if WasPlaced(s, x) {
      RunSourced(ss, steps);
      RunReplayed(ss, steps);
      RunLive(ss, steps);
      PlacedWasReached(ss, steps, s, x);
    }
  }

  lemma ReportedIsPlaced(s: State, x: Entry)
    requires C.Inv(s.client) && Resumed(s) && Reported(s, x) && x.msg.messageId != ""
    ensures WasPlaced(s, x)
  {
    assert C.Unsent(s.client) == [];
    assert x.msg.messageId in C.PlacedIds(s.client.s.placed) + C.DeliveryIds(C.Unsent(s.client));
  }

  lemma PlacedWasReached(ss: seq<State>, steps: seq<Step>, s: State, x: Entry)
    requires Sourced(s) && LogOk(s) && ReplayedOk(s) && LiveOk(ss, steps, s) && x in s.log && WasPlaced(s, x)
    ensures Reached(ss, steps, s.anchor, x)
  {
    hide HandedOver;
    var item :| item in s.client.s.placed && item.messageId == x.msg.messageId;
    assert ItemOk(s.log, item);
    if item.origin.Replayed? {
      var y :| y in s.log && y.msg == item.payload && s.anchor < y.key;
      assert y == x;
    } else {
      var y :| y in s.log && HandedOver(ss, steps, y) && y.msg == item.payload;
      assert y == x;
    }
  }

  ghost function ReachedNumbers(ss: seq<State>, steps: seq<Step>, s: State): set<int> {
    set x | x in s.log && Reached(ss, steps, s.anchor, x) && x.msg.lessonSeq > 0 :: x.msg.lessonSeq
  }

  lemma PlacedNumbersReached(ss: seq<State>, steps: seq<Step>)
    requires IsRun(ss, steps) && AtRest(ss[|steps|])
    ensures PlacedNumbers(ss[|steps|]) == ReachedNumbers(ss, steps, ss[|steps|])
  {
    var s := ss[|steps|];
    forall x | x in s.log ensures WasPlaced(s, x) <==> Reached(ss, steps, s.anchor, x) {
      PlacedIffReached(ss, steps, x);
    }
    hide IsRun, AtRest, WasPlaced, Reached;
  }

  /** At rest, a stored message with a number is shown if and only if that is n or above and
      every number from n up to it belongs to a message that ranks after the anchor or was
      handed over live; one without a number if and only if it did so itself. */
  lemma ShownIff(ss: seq<State>, steps: seq<Step>, n: int, capacity: int, x: Entry)
    requires IsRun(ss, steps) && n > 0 && AtRest(ss[|steps|]) && x in ss[|steps|].log
    requires DistinctNumbers(ss[|steps|].log, n) && H.Roomy(n, capacity, LogNumbers(ss[|steps|].log))
    ensures x.msg in Browser(ss[|steps|], n, capacity).shown <==>
      if x.msg.lessonSeq <= 0 then Reached(ss, steps, ss[|steps|].anchor, x)
      else n <= x.msg.lessonSeq && forall k :: n <= k <= x.msg.lessonSeq ==> k in ReachedNumbers(ss, steps, ss[|steps|])
  {
    var s, b := ss[|steps|], Browser(ss[|steps|], n, capacity);
    ShowsPlacedUpToHole(ss, steps, n, capacity);
    PlacedNumbersReached(ss, steps);
    PlacedIffReached(ss, steps, x);
    hide IsRun, Feed, Browser, AtRest, H.Roomy, ReachedNumbers, Reached, WasPlaced;
    BelowHole(n, PlacedNumbers(s), b.nextSeq, x.msg.lessonSeq);
    if x.msg.lessonSeq in PlacedNumbers(s) && x.msg.lessonSeq >= n {
      var y :| y in s.log && WasPlaced(s, y) && y.msg.lessonSeq == x.msg.lessonSeq;
      assert y == x;
    }
  }

  lemma BelowHole(n: int, numbers: set<int>, hole: int, k: int)
    requires H.FirstHole(n, numbers, hole)
    ensures n <= k < hole <==> n <= k && forall j :: n <= j <= k ==> j in numbers
  {
  }

  /** Every number from n up to one in use is in use. */
  ghost predicate NoHole(log: set<Entry>, n: int) {
    forall x, k :: x in log && n <= k <= x.msg.lessonSeq ==> k in LogNumbers(log)
  }

  /** Each entry numbered n and up ranks after the anchor or was handed over live. */
  ghost predicate NoneMissed(ss: seq<State>, steps: seq<Step>, s: State, n: int) {
    forall x :: x in s.log && x.msg.lessonSeq >= n ==> Reached(ss, steps, s.anchor, x)
  }

  ghost predicate AllShown(s: State, n: int, b: O.State) {
    forall x :: x in s.log && x.msg.lessonSeq >= n ==> x.msg in b.shown
  }

  /** At rest, all stored messages numbered n and up are shown if and only if their numbers
      have no hole from n on and each of them ranks after the anchor or was handed over live. */
  lemma ShowsAllIff(ss: seq<State>, steps: seq<Step>, n: int, capacity: int)
    requires IsRun(ss, steps) && n > 0 && AtRest(ss[|steps|])
    requires DistinctNumbers(ss[|steps|].log, n) && H.Roomy(n, capacity, LogNumbers(ss[|steps|].log))
    ensures AllShown(ss[|steps|], n, Browser(ss[|steps|], n, capacity))
            <==> NoHole(ss[|steps|].log, n) && NoneMissed(ss, steps, ss[|steps|], n)
  {
    var s, b := ss[|steps|], Browser(ss[|steps|], n, capacity);
    forall x | x in s.log && x.msg.lessonSeq >= n
      ensures x.msg in b.shown <==> forall k :: n <= k <= x.msg.lessonSeq ==> k in ReachedNumbers(ss, steps, s)
    {
      ShownIff(ss, steps, n, capacity, x);
    }
    hide IsRun, Browser, AtRest, H.Roomy;
    AllReachedIff(ss, steps, s, n, b);
  }

  lemma AllReachedIff(ss: seq<State>, steps: seq<Step>, s: State, n: int, b: O.State)
    requires n > 0 && DistinctNumbers(s.log, n)
    requires forall x :: x in s.log && x.msg.lessonSeq >= n ==>
               (x.msg in b.shown <==> forall k :: n <= k <= x.msg.lessonSeq ==> k in ReachedNumbers(ss, steps, s))
    ensures AllShown(s, n, b) <==> NoHole(s.log, n) && NoneMissed(ss, steps, s, n)
  {
    hide Reached;
    if AllShown(s, n, b) {
      forall x | x in s.log && x.msg.lessonSeq >= n ensures Reached(ss, steps, s.anchor, x) {
        assert x.msg.lessonSeq in ReachedNumbers(ss, steps, s);
      }
      forall x, k | x in s.log && n <= k <= x.msg.lessonSeq ensures k in LogNumbers(s.log) {
        assert k in ReachedNumbers(ss, steps, s);
      }
    }
    if NoHole(s.log, n) && NoneMissed(ss, steps, s, n) {
      forall x, k | x in s.log && n <= k <= x.msg.lessonSeq ensures k in ReachedNumbers(ss, steps, s) {
        assert k in LogNumbers(s.log);
      }
    }
  }

  // --------------------------------------------------------- numbers without a hole

  /** Every entry has a number, and those numbered n and up are numbered n, n+1, ... without a
      hole, wherever they rank in the history. */
  ghost predicate NumberedFrom(log: set<Entry>, n: int, segment: seq<Message>) {
    && n > 0 && B.Numbered(n, segment)
    && (forall m :: m in segment ==> exists x :: x in log && x.msg == m)
    && (forall x :: x in log ==> x.msg.lessonSeq > 0 && (x.msg.lessonSeq >= n ==> x.msg in segment))
  }

  /** A stored message of the block is the one its number says. */
  lemma InBlock(log: set<Entry>, n: int, segment: seq<Message>, x: Entry)
    requires NumberedFrom(log, n, segment) && x in log && x.msg.lessonSeq >= n
    ensures n <= x.msg.lessonSeq < n + |segment| && segment[x.msg.lessonSeq - n] == x.msg
  {
    var i :| 0 <= i < |segment| && segment[i] == x.msg;
  }

  lemma BlockNumbers(log: set<Entry>, n: int, segment: seq<Message>, k: int)
    requires NumberedFrom(log, n, segment) && k >= n
    ensures k in LogNumbers(log) <==> k < n + |segment|
  {
    if k < n + |segment| {
      assert segment[k - n] in segment;
      var x :| x in log && x.msg == segment[k - n];
    }
    if k in LogNumbers(log) {
      var x :| x in log && x.msg.lessonSeq == k;
      InBlock(log, n, segment, x);
    }
  }

  lemma BlockIsDistinct(s: State, n: int, segment: seq<Message>)
    requires LogOk(s) && NumberedFrom(s.log, n, segment)
    ensures DistinctNumbers(s.log, n)
  {
    hide NumberedFrom;
    forall x, y | x in s.log && y in s.log && x.msg.lessonSeq == y.msg.lessonSeq >= n ensures x == y {
      InBlock(s.log, n, segment, x);
      InBlock(s.log, n, segment, y);
    }
  }

  lemma BlockHasNoHole(log: set<Entry>, n: int, segment: seq<Message>)
    requires NumberedFrom(log, n, segment)
    ensures NoHole(log, n)
  {
    hide NumberedFrom, LogNumbers;
    forall x, k | x in log && n <= k <= x.msg.lessonSeq ensures k in LogNumbers(log) {
      InBlock(log, n, segment, x);
      BlockNumbers(log, n, segment, k);
    }
  }

  lemma BlockIsRoomy(log: set<Entry>, n: int, segment: seq<Message>, capacity: int)
    requires NumberedFrom(log, n, segment) && capacity >= |segment| - 1
    ensures H.Roomy(n, capacity, LogNumbers(log))
  {
    var beyond := H.Beyond(LogNumbers(log), n);
    hide NumberedFrom, LogNumbers;
    forall k | k in beyond ensures n + 1 <= k < n + |segment| {
      BlockNumbers(log, n, segment, k);
    }
    if segment == [] {
      assert beyond == {};
    } else {
      B.BoundedSize(beyond, n + 1, n + |segment|);
    }
  }

  lemma ShownIsNumbered(s: State, n: int, segment: seq<Message>, b: O.State)
    requires NumberedFrom(s.log, n, segment) && ShowsPlaced(s, n, b)
    ensures O.Sequenced(b.shown) == b.shown
  {
    hide O.Sequenced, O.Loose, H.FirstHole, H.NoRepeats;
    H.NothingLoose(b.shown);
    B.OnlySequenced(b.shown);
  }

  lemma ShownAt(s: State, n: int, segment: seq<Message>, b: O.State, i: nat)
    requires NumberedFrom(s.log, n, segment) && i < |b.shown| && b.shown[i].lessonSeq == n + i
    requires forall m :: m in b.shown ==> exists x :: x in s.log && x.msg == m
    ensures i < |segment| && b.shown[i] == segment[i]
  {
    hide NumberedFrom;
    assert b.shown[i] in b.shown;
    var x :| x in s.log && x.msg == b.shown[i];
    InBlock(s.log, n, segment, x);
  }

  lemma SamePrefix(a: seq<Message>, b: seq<Message>)
    requires forall i {:trigger a[i]} :: 0 <= i < |a| ==> i < |b| && a[i] == b[i]
    ensures |a| <= |b| && a == b[..|a|]
  {
    if a != [] {
      var last := a[|a| - 1];
      assert |a| - 1 < |b|;
    }
  }

  /** What is shown is the beginning of the block, up to nextSeq. */
  lemma ShownIsPrefix(s: State, n: int, segment: seq<Message>, b: O.State)
    requires NumberedFrom(s.log, n, segment) && ShowsPlaced(s, n, b)
    ensures |b.shown| == b.nextSeq - n <= |segment| && b.shown == segment[..|b.shown|]
  {
    ShownIsNumbered(s, n, segment, b);
    hide NumberedFrom, H.FirstHole, H.NoRepeats, O.Sequenced;
    forall i | 0 <= i < |b.shown| ensures i < |segment| && b.shown[i] == segment[i] {
      ShownAt(s, n, segment, b, i);
    }
    SamePrefix(b.shown, segment);
  }

  /** It is the whole block if and only if all stored messages numbered n and up are shown. */
  lemma BlockShownIff(s: State, n: int, segment: seq<Message>, b: O.State)
    requires NumberedFrom(s.log, n, segment) && ShowsPlaced(s, n, b)
    ensures b.shown == segment <==> AllShown(s, n, b)
    ensures b.shown == segment ==> b.nextSeq == n + |segment| && b.pending == map[] && !b.gapRequested
  {
    ShownIsPrefix(s, n, segment, b);
    if AllShown(s, n, b) && segment != [] {
      var last := segment[|segment| - 1];
      assert last in segment;
      var x :| x in s.log && x.msg == last;
      assert last in b.shown;
      var i :| 0 <= i < |b.shown| && b.shown[i] == last;
      assert segment[i].lessonSeq == n + i;
    }
    if b.shown == segment {
      forall x | x in s.log && x.msg.lessonSeq >= n ensures x.msg in b.shown {
        InBlock(s.log, n, segment, x);
      }
      NothingBeyond(s, n, segment, b);
    }
  }

  lemma NothingBeyond(s: State, n: int, segment: seq<Message>, b: O.State)
    requires NumberedFrom(s.log, n, segment) && ShowsPlaced(s, n, b) && b.nextSeq == n + |segment|
    ensures b.pending == map[]
  {
    hide NumberedFrom, H.FirstHole, H.NoRepeats, O.Sequenced;
    if b.pending != map[] {
      var k := SomeKey(b.pending);
      assert k in PlacedNumbers(s);
      BlockNumbers(s.log, n, segment, k);
    }
  }

  /** The numbers have no hole from n on: at rest the browser shows all stored messages numbered
      n and up, nothing else, and holds nothing, if and only if each of them ranks after the
      anchor or was handed over live. */
  lemma ShowsBlockIff(ss: seq<State>, steps: seq<Step>, n: int, segment: seq<Message>, capacity: int)
    requires IsRun(ss, steps) && AtRest(ss[|steps|])
    requires NumberedFrom(ss[|steps|].log, n, segment) && capacity >= |segment| - 1
    ensures var b := Browser(ss[|steps|], n, capacity);
            && !Overflowed(ss[|steps|], n, capacity)
            && (b.shown == segment <==> NoneMissed(ss, steps, ss[|steps|], n))
            && (b.shown == segment ==> b.nextSeq == n + |segment| && b.pending == map[] && !b.gapRequested)
  {
    var s := ss[|steps|];
    RunInv(ss, steps);
    BlockIsDistinct(s, n, segment);
    BlockIsRoomy(s.log, n, segment, capacity);
    BlockHasNoHole(s.log, n, segment);
    hide IsRun, AtRest, DistinctNumbers, H.Roomy, NoHole, NoneMissed, AllShown, Browser, Overflowed, ShowsPlaced, B.Numbered, Inv;
    ShowsPlacedUpToHole(ss, steps, n, capacity);
    ShowsAllIff(ss, steps, n, capacity);
    BlockShownIff(s, n, segment, Browser(s, n, capacity));
  }

  /** The entries after the anchor are numbered n, n+1, ... without a hole, and those at or
      before it in the history are numbered below n. */
  ghost predicate SegmentOf(log: set<Entry>, anchor: int, n: int, segment: seq<Message>) {
    && n > 0 && B.Numbered(n, segment)
    && (forall m :: m in segment ==> exists x :: x in log && x.key > anchor && x.msg == m)
    && (forall x :: x in log ==> if x.key > anchor then x.msg in segment else 0 < x.msg.lessonSeq < n)
  }

  /** When rank and number agree about the anchor besides, nothing is missed. */
  lemma ShownInLessonOrder(ss: seq<State>, steps: seq<Step>, n: int, segment: seq<Message>, capacity: int)
    requires IsRun(ss, steps) && AtRest(ss[|steps|])
    requires SegmentOf(ss[|steps|].log, ss[|steps|].anchor, n, segment) && capacity >= |segment| - 1
    ensures var b := Browser(ss[|steps|], n, capacity);
            && b.shown == segment && b.nextSeq == n + |segment|
            && b.pending == map[] && !b.gapRequested
            && !Overflowed(ss[|steps|], n, capacity)
  {
    hide AtRest, Browser, Overflowed;
    SegmentIsNumbered(ss, steps, ss[|steps|], n, segment);
    ShowsBlockIff(ss, steps, n, segment, capacity);
  }

  lemma SegmentIsNumbered(ss: seq<State>, steps: seq<Step>, s: State, n: int, segment: seq<Message>)
    requires SegmentOf(s.log, s.anchor, n, segment)
    ensures NumberedFrom(s.log, n, segment) && NoneMissed(ss, steps, s, n)
  {
    hide HandedOver;
  }
}
