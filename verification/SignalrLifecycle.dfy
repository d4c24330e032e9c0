/**
 Starting and stopping a SignalR feed: concurrent start() and stop() calls on
 one client, with handshakes that finish at any later time.
 */
module SignalrLifecycle {
  import opened Common

  type Connection = nat

  /** `live` holds the connections started and not stopped since. `stopped` is
      history: the last generation was begun by a stop(). */
  datatype Client = Client(generation: nat, connection: Option<Connection>, live: set<Connection>,
                           next: Connection, stopped: bool)

  const NEW_CLIENT: Client := Client(0, None, {}, 0, false)

  // ---- The locked sections and the connection calls

  function Begun(c: Client): Client {
    c.(generation := c.generation + 1, stopped := false)
  }

  function Halted(c: Client): Client {
    c.(generation := c.generation + 1, stopped := true)
  }

  function Closed(c: Client, conn: Connection): Client {
    c.(live := c.live - {conn})
  }

  function Opened(c: Client, conn: Connection): Client {
    c.(live := c.live + {conn})
  }

  /** configure(): a new connection in place of the old one, which is closed.
      An instance that is gone leaves everything as it was. */
  function Configured(c: Client, gone: bool): Client {
    if gone then c
    else c.(live := if c.connection.Some? then c.live - {c.connection.value} else c.live,
            connection := Some(c.next), next := c.next + 1)
  }

  // ---- Calls in flight

  datatype Pc =
    | Beginning
    | Probing(generation: nat)
    | Configuring(generation: nat)
    | Connecting(generation: nat, conn: Connection)
    | Handshaking(generation: nat, conn: Connection)
    | Checking(generation: nat, conn: Connection)
    | Cleaning(generation: nat, conn: Connection)
    | Retrying(generation: nat, conn: Connection)
    | Ending(generation: nat, conn: Connection)
    | Closing(conn: Connection)
    | Ended

  datatype Probe = Supported | Unsupported | Unknown

  datatype Handshake = Open | Idle | Fail

  /** What the world answers to a step. */
  datatype Answer = Answer(probe: Probe, gone: bool, handshake: Handshake)

  datatype World = World(client: Client, calls: seq<Pc>)

  datatype Step = CallStart | CallStop | Go(i: nat, answer: Answer)

  function To(w: World, i: nat, client: Client, pc: Pc): World
    requires i < |w.calls|
  {
    World(client, w.calls[i := pc])
  }

  function Advance(w: World, i: nat, a: Answer): World
    requires i < |w.calls|
  {
    var c := w.client;
    match w.calls[i]
    case Beginning => To(w, i, Begun(c), Probing(c.generation + 1))
    case Probing(g) =>
      (match a.probe
       case Supported => To(w, i, c, Configuring(g))
       case Unsupported => To(w, i, c, Ended)
       case Unknown => if g != c.generation || a.gone then To(w, i, c, Ended) else w)
    case Configuring(g) =>
      if g != c.generation then To(w, i, c, Ended)
      else
        var after := Configured(c, a.gone);
        if after.connection.None? then To(w, i, after, Ended)
        else To(w, i, after, Connecting(g, after.connection.value))
    case Connecting(g, conn) => To(w, i, c, if g == c.generation then Handshaking(g, conn) else Ending(g, conn))
    case Handshaking(g, conn) =>
      (match a.handshake
       case Open => To(w, i, Opened(c, conn), Checking(g, conn))
       case Idle => To(w, i, c, Checking(g, conn))
       case Fail => To(w, i, Opened(c, conn), Cleaning(g, conn)))
    case Checking(g, conn) => To(w, i, c, if conn in c.live then Ending(g, conn) else Connecting(g, conn))
    case Cleaning(g, conn) => To(w, i, Closed(c, conn), Retrying(g, conn))
    case Retrying(g, conn) => To(w, i, c, if g != c.generation || a.gone then Ending(g, conn) else Connecting(g, conn))
    case Ending(g, conn) => To(w, i, c, if g == c.generation then Ended else Closing(conn))
    case Closing(conn) => To(w, i, Closed(c, conn), Ended)
    case Ended => w
  }

  function Next(w: World, step: Step): World {
    match step
    case CallStart => w.(calls := w.calls + [Beginning])
    case CallStop =>
      var closing := if w.client.connection.Some? then Closing(w.client.connection.value) else Ended;
      World(Halted(w.client), w.calls + [closing])
    case Go(i, a) => if i < |w.calls| then Advance(w, i, a) else w
  }

  function Run(w: World, steps: seq<Step>): World
    decreases |steps|
  {
    if steps == [] then w else Run(Next(w, steps[0]), steps[1..])
  }

  // ---- The invariant

  predicate HasGeneration(pc: Pc) {
    !pc.Beginning? && !pc.Closing? && !pc.Ended?
  }

  predicate HasConnection(pc: Pc) {
    HasGeneration(pc) && !pc.Probing? && !pc.Configuring?
  }

  /** The call is bound to close `conn` before it ends. */
  predicate WillClose(w: World, i: nat, conn: Connection) {
    && i < |w.calls|
    && (w.calls[i] == Closing(conn)
        || (HasConnection(w.calls[i]) && w.calls[i].conn == conn && w.calls[i].generation != w.client.generation))
  }

  predicate Owned(c: Client, conn: Connection) {
    c.connection == Some(conn) && !c.stopped
  }

  ghost predicate GenerationsDiffer(w: World) {
    && (forall i | 0 <= i < |w.calls| && HasGeneration(w.calls[i]) :: w.calls[i].generation <= w.client.generation)
    && (forall i, j | 0 <= i < j < |w.calls| && HasGeneration(w.calls[i]) && HasGeneration(w.calls[j]) ::
          w.calls[i].generation != w.calls[j].generation)
  }

  /** Only the latest start() is current, and what it connects is the client's connection. */
  ghost predicate CurrentOwns(w: World) {
    forall i | 0 <= i < |w.calls| && HasGeneration(w.calls[i]) && w.calls[i].generation == w.client.generation ::
      !w.client.stopped && (HasConnection(w.calls[i]) ==> w.client.connection == Some(w.calls[i].conn))
  }

  ghost predicate LiveIsAnsweredFor(w: World) {
    forall conn | conn in w.client.live ::
      Owned(w.client, conn) || exists i :: WillClose(w, i, conn)
  }

  ghost predicate Inv(w: World) {
    && GenerationsDiffer(w) && CurrentOwns(w) && LiveIsAnsweredFor(w)
    && NextIsNew(w)
  }

  /** The next connection has never been handed out. */
  ghost predicate NextIsNew(w: World) {
    && (w.client.connection.Some? ==> w.client.connection.value < w.client.next)
    && (forall conn | conn in w.client.live :: conn < w.client.next)
    && (forall i | 0 <= i < |w.calls| && (HasConnection(w.calls[i]) || w.calls[i].Closing?) ::
          w.calls[i].conn < w.client.next)
  }

  lemma StartKeeps(w: World)
    requires Inv(w)
    ensures Inv(Next(w, CallStart))
  {
    var after := Next(w, CallStart);
    forall conn | conn in after.client.live && !Owned(after.client, conn)
      ensures exists i :: WillClose(after, i, conn)
    {
      var i :| WillClose(w, i, conn);
      assert WillClose(after, i, conn);
    }
  }

  lemma StopKeeps(w: World)
    requires Inv(w)
    ensures Inv(Next(w, CallStop))
  {
    var after := Next(w, CallStop);
    forall conn | conn in after.client.live
      ensures exists i :: WillClose(after, i, conn)
    {
      if Owned(w.client, conn) {
        assert WillClose(after, |w.calls|, conn);
      } else {
        var i :| WillClose(w, i, conn);
        assert WillClose(after, i, conn);
      }
    }
  }

  /** A step that changes what call `i` is doing keeps every other live connection answered for. */
  lemma AdvanceAnswers(w: World, i: nat, a: Answer)
    requires Inv(w) && i < |w.calls|
    ensures LiveIsAnsweredFor(Advance(w, i, a))
  {
    var after := Advance(w, i, a);
    forall conn | conn in after.client.live && !Owned(after.client, conn)
      ensures exists k :: WillClose(after, k, conn)
    {
      if conn in w.client.live && !Owned(w.client, conn) {
        var k :| WillClose(w, k, conn);
        if k != i {
          assert WillClose(after, k, conn);
        } else {
          assert WillClose(after, i, conn);
        }
      } else {
        assert WillClose(after, i, conn);
      }
    }
  }

  lemma AdvanceDiffers(w: World, i: nat, a: Answer)
    requires Inv(w) && i < |w.calls|
    ensures GenerationsDiffer(Advance(w, i, a))
  {
    AdvanceChangesOne(w, i, a);
  }

  /** A call keeps its generation, and gets it, the newest, as it begins. */
  lemma AdvanceChangesOne(w: World, i: nat, a: Answer)
    requires i < |w.calls|
    ensures
      var after := Advance(w, i, a);
      && |after.calls| == |w.calls| && after.calls == w.calls[i := after.calls[i]]
      && after.client.generation == w.client.generation + (if w.calls[i].Beginning? then 1 else 0)
      && (HasGeneration(after.calls[i]) ==>
            if w.calls[i].Beginning? then after.calls[i].generation == after.client.generation
            else HasGeneration(w.calls[i]) && after.calls[i].generation == w.calls[i].generation)
  {
  }

  lemma AdvanceOwns(w: World, i: nat, a: Answer)
    requires Inv(w) && i < |w.calls|
    ensures CurrentOwns(Advance(w, i, a))
  {
  }

  lemma AdvanceIsNew(w: World, i: nat, a: Answer)
    requires Inv(w) && i < |w.calls|
    ensures NextIsNew(Advance(w, i, a))
  {
  }

  lemma AdvanceKeeps(w: World, i: nat, a: Answer)
    requires Inv(w) && i < |w.calls|
    ensures Inv(Advance(w, i, a))
  {
    AdvanceAnswers(w, i, a);
    AdvanceDiffers(w, i, a);
    AdvanceOwns(w, i, a);
    AdvanceIsNew(w, i, a);
  }

  lemma {:induction false} RunKeeps(w: World, steps: seq<Step>)
    requires Inv(w)
    ensures Inv(Run(w, steps))
    decreases |steps|
  {
    if steps != [] {
      match steps[0] {
        case CallStart => StartKeeps(w);
        case CallStop => StopKeeps(w);
        case Go(i, a) =>
          if i < |w.calls| {
            AdvanceKeeps(w, i, a);
          }
      }
      RunKeeps(Next(w, steps[0]), steps[1..]);
    }
  }

  /** Main theorem: however start(), stop() and slow handshakes interleave, once
      no call is in flight only the client's own connection can be live, and not
      even that after a stop(). */
  lemma NoFeedWithoutOwner(steps: seq<Step>)
    ensures
      var w := Run(World(NEW_CLIENT, []), steps);
      (forall i | 0 <= i < |w.calls| :: w.calls[i].Ended?) ==>
        && (forall conn | conn in w.client.live :: w.client.connection == Some(conn))
        && (w.client.stopped ==> w.client.live == {})
  {
    RunKeeps(World(NEW_CLIENT, []), steps);
  }

  // ---- A start() that nothing overtakes

  /** The call is not the current one, and does not hold the connection. */
  predicate IsOther(pc: Pc, generation: nat, conn: Option<Connection>) {
    && (HasGeneration(pc) ==> pc.generation != generation)
    && (conn.Some? && (HasConnection(pc) || pc.Closing?) ==> pc.conn != conn.value)
  }

  /** No call but `i` is current, and none but it holds the connection. */
  ghost predicate OnlyMine(w: World, i: nat, conn: Option<Connection>) {
    forall k | 0 <= k < |w.calls| && k != i :: IsOther(w.calls[k], w.client.generation, conn)
  }

  /** Where a current call that nothing disturbs can be: with its connection the
      client's own, and that live once the call is over. */
  ghost predicate OnItsWay(w: World, i: nat) {
    && Inv(w) && i < |w.calls|
    && match w.calls[i]
       case Probing(g) => g == w.client.generation && OnlyMine(w, i, None)
       case Configuring(g) => g == w.client.generation && OnlyMine(w, i, None)
       case Ending(g, conn) => g == w.client.generation && OnlyMine(w, i, Some(conn)) && conn in w.client.live
       case Ended =>
         && w.client.connection.Some? && w.client.connection.value in w.client.live && !w.client.stopped
         && OnlyMine(w, i, w.client.connection)
       case Beginning => false
       case Closing(_) => false
       case _ => w.calls[i].generation == w.client.generation && OnlyMine(w, i, Some(w.calls[i].conn))
  }

  /** No stop() and no further start() begins, and what call `i` hears is neither that its
      server is too old nor that its instance is gone. */
  predicate Undisturbed(w: World, i: nat, steps: seq<Step>)
    decreases |steps|
  {
    steps == [] ||
    (&& !steps[0].CallStop?
     && (steps[0].Go? && steps[0].i < |w.calls| ==> !w.calls[steps[0].i].Beginning?)
     && (steps[0].Go? && steps[0].i == i ==> !steps[0].answer.probe.Unsupported? && !steps[0].answer.gone)
     && Undisturbed(Next(w, steps[0]), i, steps[1..]))
  }

  lemma OwnStepStaysOn(w: World, i: nat, a: Answer)
    requires OnItsWay(w, i) && !a.probe.Unsupported? && !a.gone
    ensures OnItsWay(Advance(w, i, a), i)
  {
    AdvanceKeeps(w, i, a);
  }

  /** Such a call leaves the client's generation and connection alone, and the held
      connection live. */
  lemma OtherLeavesMine(w: World, k: nat, a: Answer, conn: Option<Connection>)
    requires k < |w.calls| && !w.calls[k].Beginning? && IsOther(w.calls[k], w.client.generation, conn)
    ensures
      var after := Advance(w, k, a);
      && after.client == w.client.(live := after.client.live)
      && after.calls == w.calls[k := after.calls[k]] && IsOther(after.calls[k], w.client.generation, conn)
      && (conn.Some? && conn.value in w.client.live ==> conn.value in after.client.live)
  {
  }

  lemma OtherStepStaysOn(w: World, i: nat, k: nat, a: Answer)
    requires OnItsWay(w, i) && k < |w.calls| && k != i && !w.calls[k].Beginning?
    ensures OnItsWay(Advance(w, k, a), i)
  {
    AdvanceKeeps(w, k, a);
    var conn := if HasConnection(w.calls[i]) then Some(w.calls[i].conn)
      else if w.calls[i].Ended? then w.client.connection else None;
    OtherLeavesMine(w, k, a, conn);
  }

  lemma StartStaysOn(w: World, i: nat)
    requires OnItsWay(w, i)
    ensures OnItsWay(Next(w, CallStart), i)
  {
    StartKeeps(w);
  }

  lemma StepStaysOn(w: World, i: nat, step: Step)
    requires OnItsWay(w, i) && Undisturbed(w, i, [step])
    ensures OnItsWay(Next(w, step), i)
  {
    match step
    case CallStart => StartStaysOn(w, i);
    case Go(k, a) =>
      if k == i {
        OwnStepStaysOn(w, i, a);
      } else if k < |w.calls| {
        OtherStepStaysOn(w, i, k, a);
      }
  }

  lemma {:induction false} StaysOnItsWay(w: World, i: nat, steps: seq<Step>)
    requires OnItsWay(w, i) && Undisturbed(w, i, steps)
    ensures OnItsWay(Run(w, steps), i)
    decreases |steps|
  {
    if steps != [] {
      assert [steps[0]][1..] == [];
      StepStaysOn(w, i, steps[0]);
      StaysOnItsWay(Next(w, steps[0]), i, steps[1..]);
    }
  }

  /** How many steps a call has left whose handshakes open. */
  function StepsLeft(w: World, i: nat): nat
    requires i < |w.calls|
  {
    match w.calls[i]
    case Probing(_) => 6
    case Configuring(_) => 5
    case Connecting(_, _) => 4
    case Handshaking(_, _) => 3
    case Checking(_, conn) => if conn in w.client.live then 2 else 5
    case Cleaning(_, _) => 6
    case Retrying(_, _) => 5
    case Ending(_, _) => 1
    case _ => 0
  }

  predicate LetsIn(a: Answer) {
    a.probe.Supported? && a.handshake.Open? && !a.gone
  }

  lemma StepNearsTheEnd(w: World, i: nat, step: Step)
    requires OnItsWay(w, i) && Undisturbed(w, i, [step])
    requires step.Go? && step.i == i ==> LetsIn(step.answer)
    ensures
      StepsLeft(Next(w, step), i)
      <= if step.Go? && step.i == i && StepsLeft(w, i) > 0 then StepsLeft(w, i) - 1 else StepsLeft(w, i)
  {
  }

  function OwnSteps(steps: seq<Step>, i: nat): nat
    decreases |steps|
  {
    if steps == [] then 0 else (if steps[0].Go? && steps[0].i == i then 1 else 0) + OwnSteps(steps[1..], i)
  }

  lemma {:induction false} EndsInSix(w: World, i: nat, steps: seq<Step>)
    requires OnItsWay(w, i) && Undisturbed(w, i, steps)
    requires forall k | 0 <= k < |steps| && steps[k].Go? && steps[k].i == i :: LetsIn(steps[k].answer)
    ensures i < |Run(w, steps).calls| && (OwnSteps(steps, i) >= StepsLeft(w, i) ==> Run(w, steps).calls[i].Ended?)
    decreases |steps|
  {
    if steps != [] {
      assert [steps[0]][1..] == [];
      StepStaysOn(w, i, steps[0]);
      StepNearsTheEnd(w, i, steps[0]);
      EndsInSix(Next(w, steps[0]), i, steps[1..]);
    }
  }

  /** Main theorem: a start() that nothing overtakes, whose server is new enough and whose
      instance is there, ends only connected, however many of its handshakes fail or idle
      and whatever calls begun before it still do; and once its handshakes open it ends. */
  lemma StartConnects(before: seq<Step>, i: nat, a: Answer, steps: seq<Step>)
    requires
      var w := Run(World(NEW_CLIENT, []), before);
      i < |w.calls| && w.calls[i].Beginning? && Undisturbed(Next(w, Go(i, a)), i, steps)
    ensures
      var begun := Next(Run(World(NEW_CLIENT, []), before), Go(i, a));
      var end := Run(begun, steps);
      && i < |end.calls|
      && (end.calls[i].Ended? ==>
            && end.client.connection.Some? && end.client.connection.value in end.client.live && !end.client.stopped)
      && (OwnSteps(steps, i) >= 6
            && (forall k | 0 <= k < |steps| && steps[k].Go? && steps[k].i == i :: LetsIn(steps[k].answer)) ==>
          end.calls[i].Ended?)
  {
    var w := Run(World(NEW_CLIENT, []), before);
    RunKeeps(World(NEW_CLIENT, []), before);
    AdvanceKeeps(w, i, a);
    var begun := Next(w, Go(i, a));
    assert OnItsWay(begun, i);
    StaysOnItsWay(begun, i, steps);
    if forall k | 0 <= k < |steps| && steps[k].Go? && steps[k].i == i :: LetsIn(steps[k].answer) {
      EndsInSix(begun, i, steps);
    }
  }

  // ---- A call that is overtaken, or not wanted

  /** How many steps a call has left that was overtaken. */
  function StepsToGiveUp(pc: Pc): nat {
    match pc
    case Probing(_) => 2
    case Configuring(_) => 1
    case Connecting(_, _) => 3
    case Handshaking(_, _) => 6
    case Checking(_, _) => 4
    case Cleaning(_, _) => 5
    case Retrying(_, _) => 4
    case Ending(_, _) => 2
    case Closing(_) => 1
    case _ => 0
  }

  /** The call has begun, and a stop() or a later start() has begun since. */
  predicate Overtaken(w: World, i: nat) {
    && i < |w.calls| && !w.calls[i].Beginning?
    && (HasGeneration(w.calls[i]) ==> w.calls[i].generation < w.client.generation)
  }

  lemma OvertakenStep(w: World, i: nat, step: Step)
    requires Overtaken(w, i)
    ensures Overtaken(Next(w, step), i)
    ensures
      var before, after := StepsToGiveUp(w.calls[i]), StepsToGiveUp(Next(w, step).calls[i]);
      if step.Go? && step.i == i then after <= if before > 0 then before - 1 else 0 else after == before
  {
  }

  /** Main theorem: a call that was overtaken is over after six more of its steps, whatever
      it hears and whatever others do meanwhile. */
  lemma {:induction false} OvertakenCallsEnd(w: World, i: nat, steps: seq<Step>)
    requires Overtaken(w, i)
    ensures Overtaken(Run(w, steps), i)
    ensures OwnSteps(steps, i) >= StepsToGiveUp(w.calls[i]) ==> Run(w, steps).calls[i].Ended?
    decreases |steps|
  {
    if steps != [] {
      OvertakenStep(w, i, steps[0]);
      OvertakenCallsEnd(Next(w, steps[0]), i, steps[1..]);
    }
  }

  /** A current call gives up before it has a connection when its server is too old, or its
      instance is gone while the version is not known; and after a failed handshake when its
      instance is gone, with nothing of it live. */
  lemma UnwantedCallsEnd(w: World, i: nat, a: Answer)
    requires i < |w.calls|
    ensures
      var after := Next(w, Go(i, a));
      && (w.calls[i].Probing? && (a.probe.Unsupported? || (a.probe.Unknown? && a.gone)) ==>
            after == World(w.client, w.calls[i := Ended]))
      && (w.calls[i].Configuring? && a.gone ==> after.client == w.client)
      && (w.calls[i].Cleaning? ==> w.calls[i].conn !in after.client.live && after.calls[i].Retrying?)
      && (w.calls[i].Retrying? && a.gone ==> after.client == w.client && after.calls[i].Ending?)
      && (w.calls[i].Ending? && w.calls[i].generation == w.client.generation ==>
            after == World(w.client, w.calls[i := Ended]))
  {
  }

  /** No step closes a connection but that of its own call, or the client's own one that a
      new one takes the place of; and none opens one but that of its own call. */
  lemma OnlyOwnConnections(w: World, step: Step, conn: Connection)
    ensures
      var after := Next(w, step);
      (conn in w.client.live) != (conn in after.client.live) ==>
        && step.Go? && step.i < |w.calls|
        && var pc := w.calls[step.i];
           && if HasConnection(pc) || pc.Closing? then pc.conn == conn
              else
                && pc.Configuring? && w.client.connection == Some(conn) && conn !in after.client.live
                && after.client.connection == Some(w.client.next) && after.client.next == w.client.next + 1
    ensures Next(w, step).client.next <= w.client.next + (if step.Go? && !step.answer.gone then 1 else 0)
  {
  }

  // ---- One call as it finds the client

  /** What another call does to the client. */
  datatype Act =
    | Begins
    | Halts
    | Configures(gone: bool)
    | Opens(conn: Connection)
    | Closes(conn: Connection)

  function Acted(c: Client, act: Act): Client {
    match act
    case Begins => Begun(c)
    case Halts => Halted(c)
    case Configures(gone) => Configured(c, gone)
    case Opens(conn) => Opened(c, conn)
    case Closes(conn) => Closed(c, conn)
  }

  function ActedAll(c: Client, acts: seq<Act>): Client
    decreases |acts|
  {
    if acts == [] then c else ActedAll(Acted(c, acts[0]), acts[1..])
  }

  /** One step of the call: what others have done to the client by then, and what the
      world answers. */
  datatype Moment = Moment(acts: seq<Act>, answer: Answer)

  function Own(c: Client, pc: Pc, a: Answer): (Client, Pc) {
    var w := Advance(World(c, [pc]), 0, a);
    (w.client, w.calls[0])
  }

  function Solo(c: Client, pc: Pc, moments: seq<Moment>): (Client, Pc)
    decreases |moments|
  {
    if moments == [] then (c, pc)
    else
      var (after, next) := Own(ActedAll(c, moments[0].acts), pc, moments[0].answer);
      Solo(after, next, moments[1..])
  }

  /** The call comes to its end at the last of the moments. */
  predicate EndsWith(c: Client, pc: Pc, moments: seq<Moment>)
    decreases |moments|
  {
    if pc.Ended? then moments == []
    else
      moments != [] &&
      var (after, next) := Own(ActedAll(c, moments[0].acts), pc, moments[0].answer);
      EndsWith(after, next, moments[1..])
  }

  /** What a step of another call does to the client. */
  function ActsOf(w: World, step: Step): seq<Act> {
    match step
    case CallStart => []
    case CallStop => [Halts]
    case Go(k, a) =>
      if k >= |w.calls| then []
      else match w.calls[k]
        case Beginning => [Begins]
        case Configuring(g) => if g == w.client.generation then [Configures(a.gone)] else []
        case Handshaking(_, conn) => if a.handshake.Idle? then [] else [Opens(conn)]
        case Cleaning(_, conn) => [Closes(conn)]
        case Closing(conn) => [Closes(conn)]
        case _ => []
  }

  /** The moments of call `i` in a run; `acts` were seen before it, and the last are
      those it has not come to yet. */
  function Moments(w: World, i: nat, steps: seq<Step>, acts: seq<Act>): (seq<Moment>, seq<Act>)
    decreases |steps|
  {
    if steps == [] then ([], acts)
    else
      var after, rest := Next(w, steps[0]), steps[1..];
      if steps[0].Go? && steps[0].i == i && i < |w.calls| then
        var (moments, last) := Moments(after, i, rest, []);
        ([Moment(acts, steps[0].answer)] + moments, last)
      else Moments(after, i, rest, acts + ActsOf(w, steps[0]))
  }

  lemma OtherActs(w: World, i: nat, step: Step)
    requires i < |w.calls| && !(step.Go? && step.i == i)
    ensures Next(w, step).client == ActedAll(w.client, ActsOf(w, step))
    ensures i < |Next(w, step).calls| && Next(w, step).calls[i] == w.calls[i]
  {
    var acts := ActsOf(w, step);
    if acts != [] {
      assert acts[1..] == [];
    }
  }

  lemma {:induction false} ActedSum(c: Client, a: seq<Act>, b: seq<Act>)
    ensures ActedAll(c, a + b) == ActedAll(ActedAll(c, a), b)
    decreases |a|
  {
    if a == [] {
      assert a + b == b;
    } else {
      ActedSum(Acted(c, a[0]), a[1..], b);
      assert (a + b)[1..] == a[1..] + b;
    }
  }

  lemma OwnIsAdvance(w: World, i: nat, a: Answer)
    requires i < |w.calls|
    ensures Own(w.client, w.calls[i], a) == (Advance(w, i, a).client, Advance(w, i, a).calls[i])
    ensures |Advance(w, i, a).calls| == |w.calls|
  {
  }

  /** Main theorem: in every run of all calls, each call does to the client, and comes to,
      exactly what it would alone with the others' acts in between. */
  lemma {:induction false} EachCallRunsAlone(w: World, i: nat, steps: seq<Step>, c: Client, acts: seq<Act>)
    requires i < |w.calls| && w.client == ActedAll(c, acts)
    ensures
      var (moments, last) := Moments(w, i, steps, acts);
      var (client, pc) := Solo(c, w.calls[i], moments);
      var end := Run(w, steps);
      i < |end.calls| && end.client == ActedAll(client, last) && end.calls[i] == pc
    decreases |steps|
  {
    if steps != [] {
      var after, rest := Next(w, steps[0]), steps[1..];
      if steps[0].Go? && steps[0].i == i {
        OwnIsAdvance(w, i, steps[0].answer);
        EachCallRunsAlone(after, i, rest, after.client, []);
        var (moments, last) := Moments(after, i, rest, []);
        assert ([Moment(acts, steps[0].answer)] + moments)[1..] == moments;
      } else {
        OtherActs(w, i, steps[0]);
        ActedSum(c, acts, ActsOf(w, steps[0]));
        EachCallRunsAlone(after, i, rest, c, acts + ActsOf(w, steps[0]));
      }
    }
  }

  /** However often the call is overtaken and whenever it comes to its end: its
      connection is live then only if it is the current call. */
  lemma {:induction false} OvertakenCallsClose(c: Client, pc: Pc, moments: seq<Moment>)
    requires EndsWith(c, pc, moments) && (HasConnection(pc) || pc.Closing?)
    ensures
      var end := Solo(c, pc, moments).0;
      pc.conn in end.live ==> HasConnection(pc) && end.generation == pc.generation
    decreases |moments|
  {
    var (after, next) := Own(ActedAll(c, moments[0].acts), pc, moments[0].answer);
    if !next.Ended? {
      OvertakenCallsClose(after, next, moments[1..]);
    }
  }

  lemma OneMoment(c: Client, pc: Pc, moments: seq<Moment>, k: nat)
    requires k <= |moments| && EndsWith(c, pc, moments[k..]) && !pc.Ended?
    ensures
      && k < |moments|
      && var (after, next) := Own(ActedAll(c, moments[k].acts), pc, moments[k].answer);
         && Solo(c, pc, moments[k..]) == Solo(after, next, moments[k + 1..])
         && EndsWith(after, next, moments[k + 1..])
  {
    assert moments[k..][0] == moments[k] && moments[k..][1..] == moments[k + 1..];
  }

  // ---- The client

  class SignalrClient {
    var generation: nat
    var connection: Option<Connection>
    var live: set<Connection>
    var next: Connection
    ghost var stopped: bool

    ghost function State(): Client
      reads this
    {
      Client(generation, connection, live, next, stopped)
    }

    constructor ()
      ensures State() == NEW_CLIENT
    {
      generation, connection, live, next, stopped := 0, None, {}, 0, false;
    }

    method BeginGeneration() returns (g: nat)
      modifies this`generation, this`stopped
      ensures State() == Begun(old(State())) && g == generation
    {
      generation := generation + 1;
      stopped := false;
      g := generation;
    }

    method ConfigureIfCurrent(g: nat, gone: bool) returns (conn: Option<Connection>)
      modifies this`connection, this`live, this`next
      ensures g == generation ==> State() == Configured(old(State()), gone) && conn == connection
      ensures g != generation ==> State() == old(State()) && conn == None
    {
      if g != generation {
        return None;
      }
      if !gone {
        if connection.Some? {
          live := live - {connection.value};
        }
        connection := Some(next);
        next := next + 1;
      }
      conn := connection;
    }

    /** What other calls do meanwhile. */
    method Meanwhile(acts: seq<Act>)
      modifies this
      ensures State() == ActedAll(old(State()), acts)
    {
      var i := 0;
      while i < |acts|
        invariant 0 <= i <= |acts|
        invariant ActedAll(State(), acts[i..]) == ActedAll(old(State()), acts)
      {
        assert acts[i..][0] == acts[i] && acts[i..][1..] == acts[i + 1..];
        Act(acts[i]);
        i := i + 1;
      }
    }

    method Act(act: Act)
      modifies this
      ensures State() == Acted(old(State()), act)
    {
      match act {
        case Begins =>
          var g := BeginGeneration();
        case Halts =>
          generation, stopped := generation + 1, true;
        case Configures(gone) =>
          var conn := ConfigureIfCurrent(generation, gone);
        case Opens(conn) => live := live + {conn};
        case Closes(conn) => live := live - {conn};
      }
    }

    /** A whole start(), among the acts of other calls. The moments are those up to its
        end; the version of the server is asked for until it is known. */
    method Start(moments: seq<Moment>)
      requires EndsWith(State(), Beginning, moments)
      modifies this
      ensures (State(), Ended) == Solo(old(State()), Beginning, moments)
    {
      ghost var before := State();
      OneMoment(State(), Beginning, moments, 0);
      assert moments[0..] == moments;
      Meanwhile(moments[0].acts);
      var g := BeginGeneration();
      var k := 1;
      var supported, asking := false, true;
      while asking
        invariant k <= |moments|
        invariant EndsWith(State(), if asking then Probing(g) else if supported then Configuring(g) else Ended,
                           moments[k..])
        invariant Solo(State(), if asking then Probing(g) else if supported then Configuring(g) else Ended,
                       moments[k..])
          == Solo(before, Beginning, moments)
        decreases |moments| - k, asking
      {
        OneMoment(State(), Probing(g), moments, k);
        Meanwhile(moments[k].acts);
        var answer := moments[k].answer;
        supported := answer.probe.Supported?;
        asking := answer.probe.Unknown? && g == generation && !answer.gone;
        k := k + 1;
      }
      if !supported {
        return;
      }
      OneMoment(State(), Configuring(g), moments, k);
      Meanwhile(moments[k].acts);
      var conn := ConfigureIfCurrent(g, moments[k].answer.gone);
      if conn.None? {
        return;
      }
      Connect(g, conn.value, moments[k + 1..]);
    }

    /** The retry loop. */
    method Connect(g: nat, conn: Connection, moments: seq<Moment>)
      requires EndsWith(State(), Connecting(g, conn), moments)
      modifies this
      ensures (State(), Ended) == Solo(old(State()), Connecting(g, conn), moments)
      ensures conn in live ==> g == generation
    {
      ghost var before := State();
      OvertakenCallsClose(before, Connecting(g, conn), moments);
      var k := 0;
      var again := true;
      assert moments[0..] == moments;
      while again
        invariant k <= |moments|
        invariant EndsWith(State(), if again then Connecting(g, conn) else Ending(g, conn), moments[k..])
        invariant Solo(State(), if again then Connecting(g, conn) else Ending(g, conn), moments[k..])
          == Solo(before, Connecting(g, conn), moments)
        decreases |moments| - k, again
      {
        OneMoment(State(), Connecting(g, conn), moments, k);
        Meanwhile(moments[k].acts);
        k := k + 1;
        if g != generation {
          again := false;
        } else {
          again, k := Handshakes(g, conn, moments, k);
        }
      }
      CloseIfOvertaken(g, conn, moments, k);
    }

    /** The closing check. */
    method CloseIfOvertaken(g: nat, conn: Connection, moments: seq<Moment>, from: nat)
      requires from <= |moments| && EndsWith(State(), Ending(g, conn), moments[from..])
      modifies this
      ensures (State(), Ended) == Solo(old(State()), Ending(g, conn), moments[from..])
    {
      OneMoment(State(), Ending(g, conn), moments, from);
      Meanwhile(moments[from].acts);
      if g != generation {
        OneMoment(State(), Closing(conn), moments, from + 1);
        Meanwhile(moments[from + 1].acts);
        live := live - {conn};
      }
    }

    /** One turn of the retry loop, and how far it got. True when it goes on. */
    method Handshakes(g: nat, conn: Connection, moments: seq<Moment>, from: nat) returns (again: bool, k: nat)
      requires from <= |moments| && EndsWith(State(), Handshaking(g, conn), moments[from..])
      modifies this
      ensures from < k <= |moments|
      ensures EndsWith(State(), if again then Connecting(g, conn) else Ending(g, conn), moments[k..])
      ensures Solo(State(), if again then Connecting(g, conn) else Ending(g, conn), moments[k..])
           == Solo(old(State()), Handshaking(g, conn), moments[from..])
    {
      OneMoment(State(), Handshaking(g, conn), moments, from);
      Meanwhile(moments[from].acts);
      var handshake := moments[from].answer.handshake;
      if !handshake.Idle? {
        live := live + {conn};
      }
      if handshake.Fail? {
        again, k := CleanUp(g, conn, moments, from + 1);
      } else {
        again, k := LookAtIt(g, conn, moments, from + 1);
      }
    }

    method LookAtIt(g: nat, conn: Connection, moments: seq<Moment>, from: nat) returns (again: bool, k: nat)
      requires from <= |moments| && EndsWith(State(), Checking(g, conn), moments[from..])
      modifies this
      ensures k == from + 1 <= |moments|
      ensures EndsWith(State(), if again then Connecting(g, conn) else Ending(g, conn), moments[k..])
      ensures Solo(State(), if again then Connecting(g, conn) else Ending(g, conn), moments[k..])
           == Solo(old(State()), Checking(g, conn), moments[from..])
    {
      OneMoment(State(), Checking(g, conn), moments, from);
      Meanwhile(moments[from].acts);
      again, k := conn !in live, from + 1;
    }

    /** After a handshake that failed: stop what it left, and see whether to go on. */
    method CleanUp(g: nat, conn: Connection, moments: seq<Moment>, from: nat) returns (again: bool, k: nat)
      requires from <= |moments| && EndsWith(State(), Cleaning(g, conn), moments[from..])
      modifies this
      ensures k == from + 2 <= |moments|
      ensures EndsWith(State(), if again then Connecting(g, conn) else Ending(g, conn), moments[k..])
      ensures Solo(State(), if again then Connecting(g, conn) else Ending(g, conn), moments[k..])
           == Solo(old(State()), Cleaning(g, conn), moments[from..])
    {
      OneMoment(State(), Cleaning(g, conn), moments, from);
      Meanwhile(moments[from].acts);
      live := live - {conn};
      OneMoment(State(), Retrying(g, conn), moments, from + 1);
      Meanwhile(moments[from + 1].acts);
      again, k := g == generation && !moments[from + 1].answer.gone, from + 2;
    }

    method Stop()
      modifies this`generation, this`live, this`stopped
      ensures State() == if old(connection).Some? then Closed(Halted(old(State())), old(connection).value)
                         else Halted(old(State()))
    {
      generation := generation + 1;
      stopped := true;
      if connection.None? {
        return;
      }
      live := live - {connection.value};
    }
  }
}
