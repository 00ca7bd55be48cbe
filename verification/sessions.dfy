/**
 * The web front end's session table: a dictionary from session id to a
 * stepping CPU that the load, step, run and reset routes read and update.
 * HTTP and JSON framing are not modelled; each route is a method that
 * takes the session id and the already converted request fields and
 * returns the reply body together with its status code.
 */
module Sessions {
  import opened Wrappers
  import opened Faults
  import opened Machine
  import opened Simulator

  const NO_PROGRAM := "No program loaded"
  const OK_STATUS := 200
  const BAD_REQUEST := 400

  /** A route's reply body: the CPU's state, an error text, or the reset acknowledgement. */
  datatype Body = View(view: StateView) | Failure(message: string) | ResetDone

  datatype Reply = Reply(status: int, body: Body)

  class SessionStore {
    var sessions: map<string, SteppableCpu>

    /** Every stored CPU holds a well-formed state, and no two ids share a CPU. */
    ghost predicate Valid()
      reads this, sessions.Values
    {
      && (forall id :: id in sessions ==> sessions[id].Valid())
      && (forall a, b :: a in sessions && b in sessions && a != b ==> sessions[a] != sessions[b])
    }

    /** The module-level dictionary starts empty. */
    constructor ()
      ensures sessions == map[] && Valid()
    {
      sessions := map[];
    }

    /**
     * /api/load: a fresh CPU loads the program; only when loading raises
     * nothing is it stored under the id, replacing any earlier one. A
     * fault gives a 400 reply with the fault's text and leaves the table
     * as it was.
     */
    method Load(id: string, code: string, inputValues: seq<int>) returns (reply: Reply)
      requires Valid()
      modifies this
      ensures Valid()
      ensures LoadProgram(code, inputValues).Err? ==>
        sessions == old(sessions)
        && reply == Reply(BAD_REQUEST, Failure(Message(LoadProgram(code, inputValues).error)))
      ensures LoadProgram(code, inputValues).Ok? ==>
        && sessions.Keys == old(sessions).Keys + {id}
        && fresh(sessions[id])
        && sessions[id].State() == LoadProgram(code, inputValues).value
        && reply == Reply(OK_STATUS, View(sessions[id].ToState()))
      ensures forall other :: other in old(sessions) && other != id ==>
        other in sessions && sessions[other] == old(sessions[other])
        && sessions[other].State() == old(sessions[other].State())
      ensures forall cpu :: cpu in sessions.Values ==> cpu in old(sessions.Values) || fresh(cpu)
    {
      hide LoadProgram;
      var cpu, fault := LoadFresh(code, inputValues);
      reply := Install(id, cpu, fault);
    }

    /**
     * The tail of /api/load: a CPU whose load raised is dropped and the fault
     * text is the reply; otherwise the CPU is stored under the id and its
     * state is the reply.
     */
    method Install(id: string, cpu: SteppableCpu, fault: Option<Fault>) returns (reply: Reply)
      requires Valid() && cpu !in sessions.Values
      requires fault.None? ==> cpu.Valid()
      modifies this
      ensures Valid()
      ensures fault.Some? ==> sessions == old(sessions) && reply == Reply(BAD_REQUEST, Failure(Message(fault.value)))
      ensures fault.None? ==> sessions == old(sessions)[id := cpu] && reply == Reply(OK_STATUS, View(cpu.ToState()))
      ensures forall other :: other in old(sessions) && other != id ==> other in sessions && sessions[other] == old(sessions[other])
      ensures forall c :: c in sessions.Values ==> c in old(sessions.Values) || c == cpu
    {
      if fault.Some? {
        return Reply(BAD_REQUEST, Failure(Message(fault.value)));
      }
      ghost var before := sessions;
      sessions := sessions[id := cpu];
      forall a, b | a in sessions && b in sessions && a != b
        ensures sessions[a] != sessions[b]
      {
        if a != id && b != id {
          assert sessions[a] == before[a] && sessions[b] == before[b];
        } else if a == id {
          assert sessions[b] == before[b] && before[b] in before.Values;
        } else {
          assert sessions[a] == before[a] && before[a] in before.Values;
        }
      }
      reply := Reply(OK_STATUS, View(cpu.ToState()));
    }

    /** A new CPU that has loaded the program; nothing that existed before changes. */
    static method LoadFresh(code: string, inputValues: seq<int>) returns (cpu: SteppableCpu, fault: Option<Fault>)
      ensures fresh(cpu)
      ensures fault.None? <==> LoadProgram(code, inputValues).Ok?
      ensures fault.Some? ==> fault.value == LoadProgram(code, inputValues).error
      ensures fault.None? ==> cpu.State() == LoadProgram(code, inputValues).value && cpu.Valid()
    {
      cpu := new SteppableCpu();
      fault := cpu.LoadProgram(code, inputValues);
    }

    /** /api/step: one step of the session's CPU; an unknown id is a 400 reply and changes nothing. */
    method Step(id: string) returns (reply: Reply)
      requires Valid()
      modifies sessions.Values
      ensures Valid() && sessions == old(sessions)
      ensures id !in sessions ==> reply == Reply(BAD_REQUEST, Failure(NO_PROGRAM))
      ensures id in sessions ==>
        && sessions[id].State() == Machine.Step(old(sessions[id].State())).0
        && reply == Reply(OK_STATUS, View(sessions[id].ToState()))
      ensures forall other :: other in sessions && other != id ==>
        sessions[other].State() == old(sessions[other].State())
    {
      if id !in sessions {
        return Reply(BAD_REQUEST, Failure(NO_PROGRAM));
      }
      var cpu := sessions[id];
      var _ := cpu.Step();
      reply := Reply(OK_STATUS, View(cpu.ToState()));
    }

    /** /api/run: run_all with its default bound of MAX_STEPS steps; an unknown id is a 400 reply. */
    method Run(id: string) returns (reply: Reply)
      requires Valid()
      modifies sessions.Values
      ensures Valid() && sessions == old(sessions)
      ensures id !in sessions ==> reply == Reply(BAD_REQUEST, Failure(NO_PROGRAM))
      ensures id in sessions ==>
        && sessions[id].State() == Machine.Run(old(sessions[id].State()), MAX_STEPS).0
        && reply == Reply(OK_STATUS, View(sessions[id].ToState()))
      ensures forall other :: other in sessions && other != id ==>
        sessions[other].State() == old(sessions[other].State())
    {
      if id !in sessions {
        return Reply(BAD_REQUEST, Failure(NO_PROGRAM));
      }
      var cpu := sessions[id];
      var _ := cpu.RunAll(MAX_STEPS);
      reply := Reply(OK_STATUS, View(cpu.ToState()));
    }

    /** /api/reset: forget the id if it is present; the reply is the same either way. */
    method Reset(id: string) returns (reply: Reply)
      requires Valid()
      modifies this
      ensures Valid()
      ensures sessions == old(sessions) - {id}
      ensures reply == Reply(OK_STATUS, ResetDone)
    {
      sessions := sessions - {id};
      reply := Reply(OK_STATUS, ResetDone);
    }
  }

  /** Resetting twice leaves the table as one reset does, with the same reply both times. */
  method ResetTwice(store: SessionStore, id: string) returns (first: Reply, second: Reply)
    requires store.Valid()
    modifies store
    ensures store.Valid()
    ensures store.sessions == old(store.sessions) - {id}
    ensures first == second == Reply(OK_STATUS, ResetDone)
  {
    first := store.Reset(id);
    ghost var once := store.sessions;
    second := store.Reset(id);
    assert store.sessions == once;
  }

  /**
   * Two users load their programs under distinct ids into a fresh table,
   * then run in turn: each run reply shows the output of that user's own
   * program run from its loaded state, whatever the other user did.
   */
  method TwoUsers(idA: string, codeA: string, idB: string, codeB: string) returns (replyA: Reply, replyB: Reply)
    requires idA != idB
    requires LoadProgram(codeA, []).Ok? && LoadProgram(codeB, []).Ok?
    ensures WellFormed(LoadProgram(codeA, []).value) && WellFormed(LoadProgram(codeB, []).value)
    ensures replyA.status == OK_STATUS && replyB.status == OK_STATUS
    ensures replyA.body.View? && replyA.body.view.output == Machine.Run(LoadProgram(codeA, []).value, MAX_STEPS).0.output
    ensures replyB.body.View? && replyB.body.view.output == Machine.Run(LoadProgram(codeB, []).value, MAX_STEPS).0.output
  {
    hide LoadProgram;
    var store := new SessionStore();
    var loadA := store.Load(idA, codeA, []);
    ghost var cpuA := store.sessions[idA];
    ghost var sA := cpuA.State();
    assert WellFormed(sA);
    assert forall c :: c in store.sessions.Values ==> fresh(c);
    var loadB := store.Load(idB, codeB, []);
    ghost var cpuB := store.sessions[idB];
    ghost var sB := cpuB.State();
    assert WellFormed(sB);
    assert forall c :: c in store.sessions.Values ==> fresh(c);
    assert store.sessions[idA] == cpuA && cpuA.State() == sA;
    replyA := store.Run(idA);
    assert replyA.body.view.output == Machine.Run(sA, MAX_STEPS).0.output;
    assert store.sessions[idB] == cpuB && cpuB.State() == sB;
    replyB := store.Run(idB);
    assert replyB.body.view.output == Machine.Run(sB, MAX_STEPS).0.output;
  }
}
