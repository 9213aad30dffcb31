/**
 * The slave request state machine of the EtherCAT master
 * (master/fsm_slave.c). Once a slave is ready, the machine takes one
 * pending request at a time from the slave's queues, in a fixed order (SDO,
 * register, FoE, SoE), starts it and follows it to its end.
 *
 * The state functions the C code stores in fsm->state are the values of
 * FsmState; the request queues of the slave are sequences of request
 * objects that the machine dequeues by reassigning them; the requests are
 * objects, so that their new state is seen by whoever holds them. The CoE,
 * FoE and SoE transfers are done by sub-machines that are not part of this
 * model: one execution step of them is a parameter (SubStep).
 */
module SlaveFsm {
  import opened Globals

  /** The state function fsm->state points to. */
  datatype FsmState =
    | Idle          // ec_fsm_slave_state_idle
    | Ready         // ec_fsm_slave_state_ready
    | SdoTransfer   // ec_fsm_slave_state_sdo_request
    | RegAccess     // ec_fsm_slave_state_reg_request
    | FoeTransfer   // ec_fsm_slave_state_foe_request
    | SoeTransfer   // ec_fsm_slave_state_soe_request

  /** State of a request (ec_internal_request_state_t). */
  datatype RequestState = RequestInit | Queued | Busy | Success | Failure

  /** State of a datagram (ec_datagram_state_t). */
  datatype DatagramState = DatagramInit | DatagramQueued | Sent | Received | TimedOut | DatagramError | Invalid

  /** What ec_datagram_fprd and ec_datagram_fpwr make of the datagram: a
   *  read or a write of a register of the slave at a station address. */
  datatype Command = NoCommand | Fprd(station: U16, address: U16) | Fpwr(station: U16, address: U16)

  /** One execution step of a CoE, FoE or SoE sub-machine: still running,
   *  or done, successfully or not (what ec_fsm_*_exec and ec_fsm_*_success
   *  answer). */
  datatype SubStep = Running | Done(success: bool)

  /** An SDO request (ec_sdo_request_t); only its state is modelled. */
  class SdoRequest {
    var state: RequestState
  }

  /** An FoE request (ec_foe_request_t); only its state is modelled. */
  class FoeRequest {
    var state: RequestState
  }

  /** An SoE request (the ec_soe_request_t inside ec_master_soe_request_t);
   *  only its state is modelled. */
  class SoeRequest {
    var state: RequestState
  }

  /** A register request (ec_reg_request_t): the direction, register
   *  address and size of the access, and its memory. */
  class RegRequest {
    var state: RequestState
    var dir: Direction
    var address: U16
    var transferSize: nat
    var data: seq<Byte>
  }

  /** The datagram the machine uses (ec_datagram_t), as far as the machine
   *  reads and writes it. */
  class Datagram {
    var state: DatagramState
    var command: Command
    var dataSize: nat
    var data: seq<Byte>
    var workingCounter: U16
    var deviceIndex: nat
  }

  /** A slave configuration (ec_slave_config_t) with its own register
   *  requests, which stay in their list. */
  class SlaveConfig {
    var regRequests: seq<RegRequest>
  }

  /** The slave (ec_slave_t): its application-layer state, its addresses,
   *  its configuration (NULL when it has none) and its request queues. */
  class Slave {
    var currentState: bv8
    var stationAddress: U16
    var deviceIndex: nat
    var config: SlaveConfig?
    var sdoRequests: seq<SdoRequest>
    var regRequests: seq<RegRequest>
    var foeRequests: seq<FoeRequest>
    var soeRequests: seq<SoeRequest>
  }

  /** The first element of a queue, if any, as a frame: the request that
   *  list_del_init takes. */
  ghost function Head<T>(q: seq<T>): (r: set<T>)
    ensures q == [] <==> r == {}
    ensures q != [] ==> r == {q[0]}
  {
    if q == [] then {} else {q[0]}
  }

  /** A queue after list_del_init of its first element, if any. */
  function Dequeued<T>(q: seq<T>): (r: seq<T>)
    ensures q == [] ==> r == []
    ensures q != [] ==> [q[0]] + r == q
  {
    if q == [] then [] else q[1..]
  }

  /** The error flag of the application-layer state is set. */
  predicate ErrorFlag(cur: bv8)
  {
    cur & SlaveStateAckErr != 0
  }

  /** SDO and SoE requests are aborted when the error flag is set or the
   *  slave is in INIT. */
  predicate Aborts(cur: bv8)
  {
    ErrorFlag(cur) || cur == SlaveStateInit
  }

  /** From position i on, the first register request in state QUEUED. */
  function FirstQueued(rs: seq<RegRequest>, i: nat): (r: Option<nat>)
    reads rs`state
    decreases |rs| - i
    ensures r.Some? ==> i <= r.value < |rs| && rs[r.value].state == Queued
    ensures r.Some? ==> forall k :: i <= k < r.value ==> rs[k].state != Queued
    ensures r.None? ==> forall k :: i <= k < |rs| ==> rs[k].state != Queued
  {
    if i >= |rs| then None
    else if rs[i].state == Queued then Some(i)
    else FirstQueued(rs, i + 1)
  }

  /** The search of ec_fsm_slave_action_process_reg for the first internal
   *  register request in state QUEUED. */
  method FindQueued(rs: seq<RegRequest>) returns (r: Option<nat>)
    ensures r == FirstQueued(rs, 0)
  {
    var i := 0;
    while i < |rs|
      invariant i <= |rs|
      invariant FirstQueued(rs, 0) == FirstQueued(rs, i)
    {
      if rs[i].state == Queued {
        return Some(i);
      }
      i := i + 1;
    }
    return None;
  }

  /** The actions of the READY state, in the order they are tried. */
  datatype Action = SdoAction | RegAction | FoeAction | SoeAction

  /** The action that answers non-zero in the READY state, given the
   *  application-layer state cur and which queues hold a request (for
   *  registers: an internal QUEUED one or an external one); None when all
   *  four answer 0. An aborted SDO or SoE request and an aborted FoE
   *  request answer 0; an aborted register request answers 1. */
  function Claim(cur: bv8, sdo: bool, reg: bool, foe: bool, soe: bool): (c: Option<Action>)
    ensures c == Some(SdoAction) <==> sdo && !Aborts(cur)
    ensures c == Some(RegAction) <==> !(sdo && !Aborts(cur)) && reg
    ensures c == Some(FoeAction) <==> !(sdo && !Aborts(cur)) && !reg && foe && !ErrorFlag(cur)
    ensures c.None? <==> (sdo ==> Aborts(cur)) && !reg && (foe ==> ErrorFlag(cur)) && (soe ==> Aborts(cur))
  {
    if sdo && !Aborts(cur) then Some(SdoAction)
    else if reg then Some(RegAction)
    else if foe && !ErrorFlag(cur) then Some(FoeAction)
    else if soe && !Aborts(cur) then Some(SoeAction)
    else None
  }

  /** The state the FoE and SoE actions leave behind, from state st: an
   *  aborted FoE request leaves the state as it was, an aborted SoE request
   *  makes it IDLE. */
  function FoeSoeState(st: FsmState, cur: bv8, foe: bool, soe: bool): FsmState
  {
    if foe && !ErrorFlag(cur) then FoeTransfer
    else if soe then (if Aborts(cur) then Idle else SoeTransfer)
    else st
  }

  /** The state the register, FoE and SoE actions leave behind, from state
   *  st: a register request, even an aborted one, ends the turn. */
  function RegOnState(st: FsmState, cur: bv8, reg: bool, foe: bool, soe: bool): FsmState
  {
    if reg then (if ErrorFlag(cur) then Idle else RegAccess)
    else FoeSoeState(st, cur, foe, soe)
  }

  /** The state the READY state leaves behind: an SDO request that is
   *  started ends the turn; an aborted one makes the state IDLE and the
   *  other actions follow. */
  function ReadyState(cur: bv8, sdo: bool, reg: bool, foe: bool, soe: bool): FsmState
  {
    if sdo && !Aborts(cur) then SdoTransfer
    else RegOnState(if sdo then Idle else Ready, cur, reg, foe, soe)
  }

  /** The READY state ends in the state of the action that claims the turn
   *  (IDLE for an aborted register request), or, when none does, IDLE
   *  after an aborted SDO or SoE request and READY otherwise. */
  lemma ReadyStateClaim(cur: bv8, sdo: bool, reg: bool, foe: bool, soe: bool)
    ensures ReadyState(cur, sdo, reg, foe, soe) ==
      match Claim(cur, sdo, reg, foe, soe)
      case Some(SdoAction) => SdoTransfer
      case Some(RegAction) => if ErrorFlag(cur) then Idle else RegAccess
      case Some(FoeAction) => FoeTransfer
      case Some(SoeAction) => SoeTransfer
      case None => if sdo || soe then Idle else Ready
  {
    if !(sdo && !Aborts(cur)) && !reg && !(foe && !ErrorFlag(cur)) && soe {
      assert Claim(cur, sdo, reg, foe, soe) == if Aborts(cur) then None else Some(SoeAction);
    }
  }

  /** READY ends in the transfer state of a queue only when that queue held
   *  a request the slave's state allowed, and every queue before it was
   *  empty or had its request aborted; it stays READY only when nothing
   *  was queued but an FoE request of a slave in error. */
  lemma ReadyStartsOnlyAllowed(cur: bv8, sdo: bool, reg: bool, foe: bool, soe: bool)
    ensures var s := ReadyState(cur, sdo, reg, foe, soe);
      && (s == SdoTransfer ==> sdo && !Aborts(cur))
      && (s == RegAccess ==> reg && !ErrorFlag(cur) && (sdo ==> Aborts(cur)))
      && (s == FoeTransfer ==> foe && !ErrorFlag(cur) && !reg && (sdo ==> Aborts(cur)))
      && (s == SoeTransfer ==> soe && !Aborts(cur) && !reg && (sdo ==> Aborts(cur)) && (foe ==> ErrorFlag(cur)))
      && (s == Ready ==> !sdo && !reg && !soe && (foe ==> ErrorFlag(cur)))
  {
  }

  /** The transitions of the machine: the request states return only to
   *  READY, and only READY starts a request. */
  predicate Transition(st: FsmState, st': FsmState)
  {
    match st
    case Idle => st' == Idle
    case Ready => true
    case SdoTransfer => st' == SdoTransfer || st' == Ready
    case RegAccess => st' == Ready
    case FoeTransfer => st' == FoeTransfer || st' == Ready
    case SoeTransfer => st' == SoeTransfer || st' == Ready
  }

  /** A datagram holding n zero bytes (ec_datagram_zero). */
  function Zeros(n: nat): (z: seq<Byte>)
    ensures |z| == n && forall i :: 0 <= i < n ==> z[i] == 0
  {
    seq(n, _ => 0)
  }

  /** A snapshot of what the register, FoE and SoE actions of the READY
   *  state look at and may write (see Fsm.Tail). */
  datatype Before = Before(pending: Option<RegRequest>, pendingState: RequestState, external: bool,
                           reg: seq<RegRequest>, foe: seq<FoeRequest>, foeState: RequestState,
                           soe: seq<SoeRequest>, soeState: RequestState,
                           regRequest: RegRequest?, foeRequest: FoeRequest?, soeRequest: SoeRequest?,
                           command: Command, dataSize: nat, data: seq<Byte>, deviceIndex: nat)

  /** The slave state machine (ec_fsm_slave_t). */
  class Fsm {
    const slave: Slave
    const datagram: Datagram
    var state: FsmState
    var sdoRequest: SdoRequest?
    var regRequest: RegRequest?
    var foeRequest: FoeRequest?
    var soeRequest: SoeRequest?

    /** A transfer state has the request it works on. */
    predicate Valid()
      reads this
    {
      && (state == SdoTransfer ==> sdoRequest != null)
      && (state == FoeTransfer ==> foeRequest != null)
      && (state == SoeTransfer ==> soeRequest != null)
    }

    /** The register requests of the slave's configuration. */
    function Internal(): seq<RegRequest>
      reads slave`config, {slave.config}`regRequests
    {
      if slave.config == null then [] else slave.config.regRequests
    }

    /** The register request ec_fsm_slave_action_process_reg takes: the
     *  first internal one in state QUEUED, otherwise the first of the
     *  slave's queue. */
    function PendingReg(): (p: Option<RegRequest>)
      reads slave`config, {slave.config}`regRequests, Internal()`state, slave`regRequests
      ensures p.None? <==> FirstQueued(Internal(), 0).None? && slave.regRequests == []
    {
      match FirstQueued(Internal(), 0)
      case Some(i) => Some(Internal()[i])
      case None => if slave.regRequests == [] then None else Some(slave.regRequests[0])
    }

    /** The register request ec_fsm_slave_action_process_reg takes, as a
     *  frame. */
    ghost function PendingSet(): (r: set<RegRequest>)
      reads slave`config, {slave.config}`regRequests, Internal()`state, slave`regRequests
      ensures PendingReg().None? <==> r == {}
      ensures PendingReg().Some? ==> r == {PendingReg().value}
    {
      if PendingReg().Some? then {PendingReg().value} else {}
    }

    /** The request memory holds the bytes a register write sends. */
    predicate RegSized()
      reads slave`config, {slave.config}`regRequests, Internal()`state, slave`regRequests
      reads (if PendingReg().Some? then {PendingReg().value} else {})`transferSize
      reads (if PendingReg().Some? then {PendingReg().value} else {})`data
    {
      PendingReg().Some? ==> PendingReg().value.transferSize <= |PendingReg().value.data|
    }

    /** ec_fsm_slave_init: the machine starts IDLE, with no request, and the
     *  datagram's data size is set to 0. */
    constructor (slave: Slave, datagram: Datagram)
      modifies datagram`dataSize
      ensures this.slave == slave && this.datagram == datagram
      ensures state == Idle && datagram.dataSize == 0 && Valid()
      ensures sdoRequest == null && regRequest == null && foeRequest == null && soeRequest == null
    {
      this.slave := slave;
      this.datagram := datagram;
      state := Idle;
      sdoRequest, regRequest, foeRequest, soeRequest := null, null, null, null;
      new;
      datagram.dataSize := 0;
    }

    /** ec_fsm_slave_ready: an IDLE machine becomes READY; any other state
     *  is kept. */
    method SetReady()
      requires Valid()
      modifies this`state
      ensures state == if old(state) == Idle then Ready else old(state)
      ensures Valid()
    {
      if state == Idle {
        state := Ready;
      }
    }

    /** The datagram has not been sent or received yet. */
    predicate Delayed()
      reads datagram`state
    {
      datagram.state == Sent || datagram.state == DatagramQueued
    }

    /** What a call of the machine may need: in READY, a register write
     *  finds its bytes in the pending request; in the register state, the
     *  request and the datagram hold the bytes of the access. */
    predicate Runnable()
      reads this`state, this`regRequest, {regRequest}`transferSize, {regRequest}`data, {regRequest}`dir
      reads datagram`data, slave`config, {slave.config}`regRequests, Internal()`state, slave`regRequests
      reads (if PendingReg().Some? then {PendingReg().value} else {})`transferSize
      reads (if PendingReg().Some? then {PendingReg().value} else {})`data
    {
      && (state == Ready ==> RegSized())
      && (state == RegAccess && regRequest != null ==>
            regRequest.transferSize <= |regRequest.data|
            && (regRequest.dir == Input ==> regRequest.transferSize <= |datagram.data|))
    }

    /** Nothing the machine may write has changed, from the queues sdo, foe
     *  and soe and the pending register request before: its own fields,
     *  the slave's queues, the datagram, the requests at the heads of the
     *  queues, the pending register request and the current requests. */
    twostate predicate Kept(sdo: seq<SdoRequest>, pending: Option<RegRequest>, foe: seq<FoeRequest>, soe: seq<SoeRequest>)
      reads *
    {
      && unchanged(this, slave, datagram)
      && (sdo != [] ==> sdo[0].state == old(sdo[0].state))
      && (pending.Some? ==> pending.value.state == old(pending.value.state))
      && (foe != [] ==> foe[0].state == old(foe[0].state))
      && (soe != [] ==> soe[0].state == old(soe[0].state))
      && (sdoRequest != null ==> sdoRequest.state == old(sdoRequest.state))
      && (regRequest != null ==> regRequest.state == old(regRequest.state) && regRequest.data == old(regRequest.data))
      && (foeRequest != null ==> foeRequest.state == old(foeRequest.state))
      && (soeRequest != null ==> soeRequest.state == old(soeRequest.state))
    }

    /** The request state st works on, from the current requests sdo0,
     *  reg0, foe0 and soe0; none outside the request states. */
    static function Working(st: FsmState, sdo0: SdoRequest?, reg0: RegRequest?, foe0: FoeRequest?, soe0: SoeRequest?): object?
    {
      match st
      case SdoTransfer => sdo0
      case RegAccess => reg0
      case FoeTransfer => foe0
      case SoeTransfer => soe0
      case _ => null
    }

    /** Of the requests a call of the machine may write (the heads of the
     *  queues sdo, foe and soe, the pending register request and the
     *  current requests before), every one but w keeps its state, and
     *  every register request keeps its data unless it is w and rewritten
     *  holds. */
    twostate predicate StatesKept(sdo: seq<SdoRequest>, pending: Option<RegRequest>, foe: seq<FoeRequest>,
                                  soe: seq<SoeRequest>, w: object?, rewritten: bool)
      reads *
    {
      && (sdo != [] && sdo[0] != w ==> sdo[0].state == old(sdo[0].state))
      && (pending.Some? && pending.value != w ==> pending.value.state == old(pending.value.state))
      && (pending.Some? && !(rewritten && pending.value == w) ==> pending.value.data == old(pending.value.data))
      && (foe != [] && foe[0] != w ==> foe[0].state == old(foe[0].state))
      && (soe != [] && soe[0] != w ==> soe[0].state == old(soe[0].state))
      && (old(sdoRequest) != null && old(sdoRequest) != w ==> old(sdoRequest).state == old(sdoRequest.state))
      && (old(regRequest) != null && old(regRequest) != w ==> old(regRequest).state == old(regRequest.state))
      && (old(regRequest) != null && !(rewritten && old(regRequest) == w) ==> old(regRequest).data == old(regRequest.data))
      && (old(foeRequest) != null && old(foeRequest) != w ==> old(foeRequest).state == old(foeRequest.state))
      && (old(soeRequest) != null && old(soeRequest) != w ==> old(soeRequest).state == old(soeRequest.state))
    }

    /** The SDO requests a call of the machine may write the state of: in
     *  READY the head of the SDO queue, in the SDO state the current
     *  request, otherwise none. */
    ghost function SdoWrites(): set<SdoRequest?>
      reads this`state, this`sdoRequest, slave`sdoRequests
    {
      if state == Ready then Head(slave.sdoRequests)
      else if state == SdoTransfer then {sdoRequest}
      else {}
    }

    /** The register requests a call of the machine may write the state of:
     *  in READY the pending one, in the register state the current one,
     *  otherwise none. */
    ghost function RegWrites(): set<RegRequest?>
      reads this`state, this`regRequest, slave`config, {slave.config}`regRequests, Internal()`state, slave`regRequests
    {
      if state == Ready then PendingSet()
      else if state == RegAccess then {regRequest}
      else {}
    }

    /** The register requests a call of the machine may write the data of:
     *  the current one in the register state, none otherwise. */
    ghost function RegDataWrites(): set<RegRequest?>
      reads this`state, this`regRequest
    {
      if state == RegAccess then {regRequest} else {}
    }

    /** The FoE requests a call of the machine may write the state of. */
    ghost function FoeWrites(): set<FoeRequest?>
      reads this`state, this`foeRequest, slave`foeRequests
    {
      if state == Ready then Head(slave.foeRequests)
      else if state == FoeTransfer then {foeRequest}
      else {}
    }

    /** The SoE requests a call of the machine may write the state of. */
    ghost function SoeWrites(): set<SoeRequest?>
      reads this`state, this`soeRequest, slave`soeRequests
    {
      if state == Ready then Head(slave.soeRequests)
      else if state == SoeTransfer then {soeRequest}
      else {}
    }

    /** ec_fsm_slave_exec, given the step the running sub-machine, if any,
     *  takes: while the datagram is SENT or QUEUED nothing changes;
     *  otherwise the current state function runs once (Step). */
    method Exec(step: SubStep)
      requires Valid() && Runnable()
      modifies this`state, this`sdoRequest, this`regRequest, this`foeRequest, this`soeRequest
      modifies slave`sdoRequests, slave`regRequests, slave`foeRequests, slave`soeRequests
      modifies SdoWrites()`state, RegWrites()`state, RegDataWrites()`data, FoeWrites()`state, SoeWrites()`state
      modifies datagram`command, datagram`dataSize, datagram`data, datagram`deviceIndex
      ensures Valid()
      ensures !old(Delayed()) ==> Transition(old(state), state)
      ensures old(Delayed()) ==>
        Kept(old(slave.sdoRequests), old(PendingReg()), old(slave.foeRequests), old(slave.soeRequests))
      ensures !old(Delayed()) ==> StepSpec(step, old(slave.sdoRequests), old(sdoRequest), old(Tail()))
    {
      if Delayed() {
        return;
      }
      Step(step);
    }

    /** What one run of the current state function does, from the SDO
     *  queue sdo, the current SDO request sdo0 and the snapshot b before
     *  it: IDLE changes nothing, READY leaves ReadySpec, and a request
     *  state leaves RequestSpec and writes no request but its own
     *  (StatesKept). What READY may write is the frame SdoWrites,
     *  RegWrites, FoeWrites and SoeWrites give in that state. */
    twostate predicate StepSpec(step: SubStep, sdo: seq<SdoRequest>, sdo0: SdoRequest?, b: Before)
      reads *
    {
      match old(state)
      case Idle => Kept(sdo, b.pending, b.foe, b.soe)
      case Ready => ReadySpec(sdo, sdo0, b)
      case _ =>
        && RequestSpec(step)
        && StatesKept(sdo, b.pending, b.foe, b.soe, Working(old(state), old(sdoRequest), old(regRequest), old(foeRequest), old(soeRequest)),
                      old(state) == RegAccess)
    }

    /** The call fsm->state(fsm) in ec_fsm_slave_exec: the current state
     *  function runs once. */
    method Step(step: SubStep)
      requires Valid() && Runnable()
      modifies this`state, this`sdoRequest, this`regRequest, this`foeRequest, this`soeRequest
      modifies slave`sdoRequests, slave`regRequests, slave`foeRequests, slave`soeRequests
      modifies SdoWrites()`state, RegWrites()`state, RegDataWrites()`data, FoeWrites()`state, SoeWrites()`state
      modifies datagram`command, datagram`dataSize, datagram`data, datagram`deviceIndex
      ensures Valid() && Transition(old(state), state)
      ensures StepSpec(step, old(slave.sdoRequests), old(sdoRequest), old(Tail()))
    {
      if state == Ready {
        StateReady();
      } else if state != Idle {
        RequestStep(step);
      }
    }

    /** What a request state does, given the sub-machine's step. An SDO,
     *  FoE or SoE state changes nothing while its sub-machine runs; once it
     *  is done, the request succeeds or fails as the transfer did, is no
     *  longer the current one, and the machine is READY. The register state
     *  ends READY, its request failing unless the datagram came back with
     *  working counter 1, and a read copying the data back. The slave, the
     *  datagram and the other current requests are left alone. */
    twostate predicate RequestSpec(step: SubStep)
      reads *
    {
      match old(state)
      case SdoTransfer =>
        && old(sdoRequest) != null
        && regRequest == old(regRequest) && foeRequest == old(foeRequest) && soeRequest == old(soeRequest)
        && (step.Running? ==> state == old(state) && sdoRequest == old(sdoRequest) && old(sdoRequest).state == old(sdoRequest.state))
        && (step.Done? ==> old(sdoRequest).state == (if step.success then Success else Failure) && sdoRequest == null && state == Ready)
        && unchanged(slave, datagram)
      case FoeTransfer =>
        && old(foeRequest) != null
        && sdoRequest == old(sdoRequest) && regRequest == old(regRequest) && soeRequest == old(soeRequest)
        && (step.Running? ==> state == old(state) && foeRequest == old(foeRequest) && old(foeRequest).state == old(foeRequest.state))
        && (step.Done? ==> old(foeRequest).state == (if step.success then Success else Failure) && foeRequest == null && state == Ready)
        && unchanged(slave, datagram)
      case SoeTransfer =>
        && old(soeRequest) != null
        && sdoRequest == old(sdoRequest) && regRequest == old(regRequest) && foeRequest == old(foeRequest)
        && (step.Running? ==> state == old(state) && soeRequest == old(soeRequest) && old(soeRequest).state == old(soeRequest.state))
        && (step.Done? ==> old(soeRequest).state == (if step.success then Success else Failure) && soeRequest == null && state == Ready)
        && unchanged(slave, datagram)
      case RegAccess =>
        && state == Ready
        && sdoRequest == old(sdoRequest) && regRequest == old(regRequest)
        && foeRequest == old(foeRequest) && soeRequest == old(soeRequest)
        && (regRequest != null ==>
              var reg := regRequest;
              var read := datagram.state == Received && datagram.workingCounter == 1;
              && reg.dir == old(reg.dir) && reg.transferSize == old(reg.transferSize) && reg.address == old(reg.address)
              && reg.transferSize <= |old(reg.data)|
              && (reg.dir == Input ==> reg.transferSize <= |datagram.data|)
              && reg.state == (if read then Success else Failure)
              && reg.data == (if read && reg.dir == Input
                              then datagram.data[..reg.transferSize] + old(reg.data)[reg.transferSize..]
                              else old(reg.data)))
        && unchanged(slave, datagram)
      case _ => true
    }

    /** The call fsm->state(fsm) in a request state (RequestSpec); the
     *  register state always ends in READY, the others when their
     *  sub-machine is done. */
    method RequestStep(step: SubStep)
      requires Valid() && Runnable() && state != Idle && state != Ready
      modifies this`state, this`sdoRequest, this`foeRequest, this`soeRequest
      modifies SdoWrites()`state, RegWrites()`state, RegDataWrites()`data, FoeWrites()`state, SoeWrites()`state
      ensures Valid() && Transition(old(state), state)
      ensures old(state) == RegAccess ==> state == Ready
      ensures old(state) != RegAccess ==> (state == Ready <==> step.Done?)
      ensures RequestSpec(step)
      ensures StatesKept(old(slave.sdoRequests), old(PendingReg()), old(slave.foeRequests), old(slave.soeRequests),
                         Working(old(state), old(sdoRequest), old(regRequest), old(foeRequest), old(soeRequest)),
                         old(state) == RegAccess)
    {
      match state
      case SdoTransfer => StateSdoRequest(step);
      case RegAccess => StateRegRequest();
      case FoeTransfer => StateFoeRequest(step);
      case SoeTransfer => StateSoeRequest(step);
    }

    /** ec_fsm_slave_state_ready: the SDO, register, FoE and SoE actions are
     *  tried in this order, and the first that answers non-zero (Claim) ends
     *  the turn. Every action tried dequeues its request, if any, and makes
     *  it FAILURE or BUSY; the state left behind is ReadyState, and what
     *  the actions not tried would have written is left alone. */
    method StateReady()
      requires state == Ready && RegSized()
      modifies this`state, this`sdoRequest, this`regRequest, this`foeRequest, this`soeRequest
      modifies slave`sdoRequests, slave`regRequests, slave`foeRequests, slave`soeRequests
      modifies Head(slave.sdoRequests)`state, PendingSet()`state, Head(slave.foeRequests)`state
      modifies Head(slave.soeRequests)`state
      modifies datagram`command, datagram`dataSize, datagram`data, datagram`deviceIndex
      ensures ReadySpec(old(slave.sdoRequests), old(sdoRequest), old(Tail()))
    {
      var r := ActionProcessSdo();
      if r != 0 {
        return;
      }
      RegTail();
    }

    /** What the register, FoE and SoE actions of the READY state look at
     *  and may write, before they run: the pending register request and
     *  its state, whether it comes from the slave's own queue (external),
     *  the queues, the states of their first requests, the current
     *  requests and the datagram. */
    ghost function Tail(): Before
      reads slave`config, {slave.config}`regRequests, Internal()`state, slave`regRequests, PendingSet()`state
      reads slave`foeRequests, slave`soeRequests, Head(slave.foeRequests)`state, Head(slave.soeRequests)`state
      reads this`regRequest, this`foeRequest, this`soeRequest
      reads datagram`command, datagram`dataSize, datagram`data, datagram`deviceIndex
    {
      var p := PendingReg();
      var foe, soe := slave.foeRequests, slave.soeRequests;
      Before(p, if p.Some? then p.value.state else RequestInit, FirstQueued(Internal(), 0).None?, slave.regRequests,
             foe, if foe != [] then foe[0].state else RequestInit,
             soe, if soe != [] then soe[0].state else RequestInit,
             regRequest, foeRequest, soeRequest,
             datagram.command, datagram.dataSize, datagram.data, datagram.deviceIndex)
    }

    /** What the READY state leaves, from the SDO queue sdo, the current
     *  SDO request sdo0 and the snapshot b before it: the state is
     *  ReadyState; the SDO action is always tried, and when it starts its
     *  request nothing the other actions may write has changed (Untouched),
     *  otherwise they follow (TailSpec). */
    ghost predicate ReadySpec(sdo: seq<SdoRequest>, sdo0: SdoRequest?, b: Before)
      reads *
    {
      var cur := slave.currentState;
      && state == ReadyState(cur, sdo != [], b.pending.Some?, b.foe != [], b.soe != [])
      && slave.sdoRequests == Dequeued(sdo)
      && (sdo != [] ==> sdo[0].state == if Aborts(cur) then Failure else Busy)
      && sdoRequest == (if sdo == [] then sdo0 else if Aborts(cur) then null else sdo[0])
      && (sdo != [] && !Aborts(cur) ==> Untouched(b))
      && (sdo == [] || Aborts(cur) ==> TailSpec(b))
    }

    /** Nothing the register, FoE and SoE actions may write has changed
     *  since snapshot b. */
    ghost predicate Untouched(b: Before)
      reads *
    {
      && slave.regRequests == b.reg && slave.foeRequests == b.foe && slave.soeRequests == b.soe
      && (b.pending.Some? ==> b.pending.value.state == b.pendingState)
      && (b.foe != [] ==> b.foe[0].state == b.foeState)
      && (b.soe != [] ==> b.soe[0].state == b.soeState)
      && regRequest == b.regRequest && foeRequest == b.foeRequest && soeRequest == b.soeRequest
      && DatagramAsBefore(b)
    }

    /** The datagram fields the machine writes are as in snapshot b. */
    ghost predicate DatagramAsBefore(b: Before)
      reads *
    {
      && datagram.command == b.command && datagram.dataSize == b.dataSize
      && datagram.data == b.data && datagram.deviceIndex == b.deviceIndex
    }

    /** What the register, FoE and SoE actions of the READY state leave,
     *  from snapshot b: the register request, if any, becomes the current
     *  one and ends the turn even when aborted, a started one with the
     *  datagram set up for its access; otherwise no register request is
     *  current and the FoE and SoE actions follow (FoeSoeSpec). */
    ghost predicate TailSpec(b: Before)
      reads *
    {
      var cur := slave.currentState;
      && slave.regRequests == (if b.external then Dequeued(b.reg) else b.reg)
      && regRequest == (if b.pending.Some? then b.pending.value else null)
      && (b.pending.Some? ==> b.pending.value.state == if ErrorFlag(cur) then Failure else Busy)
      && (b.pending.Some? && !ErrorFlag(cur) ==> DatagramSetUp(b.pending.value))
      && (b.pending.None? || ErrorFlag(cur) ==> DatagramAsBefore(b))
      && (b.pending.Some? ==>
            && slave.foeRequests == b.foe && slave.soeRequests == b.soe
            && (b.foe != [] ==> b.foe[0].state == b.foeState)
            && (b.soe != [] ==> b.soe[0].state == b.soeState)
            && foeRequest == b.foeRequest && soeRequest == b.soeRequest)
      && (b.pending.None? ==> FoeSoeSpec(b.foe, b.foeState, b.soe, b.soeState, b.foeRequest, b.soeRequest))
    }

    /** The datagram is set up for the access of register request reg: a
     *  read (zeroed) or a write (the request's bytes) at the slave's
     *  station address, on the slave's device. */
    ghost predicate DatagramSetUp(reg: RegRequest)
      reads *
    {
      && datagram.deviceIndex == slave.deviceIndex && datagram.dataSize == reg.transferSize
      && datagram.command == (if reg.dir == Input then Fprd(slave.stationAddress, reg.address)
                              else Fpwr(slave.stationAddress, reg.address))
      && datagram.data == (if reg.dir == Input then Zeros(reg.transferSize)
                           else if reg.transferSize <= |reg.data| then reg.data[..reg.transferSize] else datagram.data)
    }

    /** What the FoE and SoE actions of the READY state leave, from the
     *  queues foe and soe, the states of their first requests and the
     *  current requests foe0 and soe0 before them: the FoE request, if any,
     *  is dequeued and fails or starts, a started one ending the turn;
     *  otherwise the SoE request, if any, is dequeued and fails or starts.
     *  A queue not tried keeps its first request's state, and a current
     *  request not replaced stays. */
    ghost predicate FoeSoeSpec(foe: seq<FoeRequest>, foeState: RequestState, soe: seq<SoeRequest>,
                               soeState: RequestState, foe0: FoeRequest?, soe0: SoeRequest?)
      reads *
    {
      var cur := slave.currentState;
      var foeTaken := foe != [] && !ErrorFlag(cur);
      && slave.foeRequests == Dequeued(foe)
      && (foe != [] ==> foe[0].state == if ErrorFlag(cur) then Failure else Busy)
      && foeRequest == (if foeTaken then foe[0] else foe0)
      && slave.soeRequests == (if foeTaken then soe else Dequeued(soe))
      && (soe != [] ==> soe[0].state == if foeTaken then soeState else if Aborts(cur) then Failure else Busy)
      && soeRequest == (if !foeTaken && soe != [] && !Aborts(cur) then soe[0] else soe0)
    }

    /** The register, FoE and SoE actions of the READY state. */
    method RegTail()
      requires RegSized()
      modifies this`state, this`regRequest, this`foeRequest, this`soeRequest
      modifies slave`regRequests, slave`foeRequests, slave`soeRequests
      modifies PendingSet()`state, Head(slave.foeRequests)`state, Head(slave.soeRequests)`state
      modifies datagram`command, datagram`dataSize, datagram`data, datagram`deviceIndex
      ensures state == old(RegOnState(state, slave.currentState, PendingReg().Some?,
                                      slave.foeRequests != [], slave.soeRequests != []))
      ensures TailSpec(old(Tail()))
    {
      var r := ActionProcessReg();
      if r != 0 {
        return;
      }
      FoeSoeTail();
    }

    /** The FoE and SoE actions of the READY state. */
    method FoeSoeTail()
      modifies this`state, this`foeRequest, this`soeRequest, slave`foeRequests, slave`soeRequests
      modifies Head(slave.foeRequests)`state, Head(slave.soeRequests)`state
      ensures state == old(FoeSoeState(state, slave.currentState, slave.foeRequests != [], slave.soeRequests != []))
      ensures var foe, soe := old(slave.foeRequests), old(slave.soeRequests);
        FoeSoeSpec(foe, if foe != [] then old(foe[0].state) else RequestInit,
                   soe, if soe != [] then old(soe[0].state) else RequestInit, old(foeRequest), old(soeRequest))
    {
      var r := ActionProcessFoe();
      if r != 0 {
        return;
      }
      r := ActionProcessSoe();
    }

    /** ec_fsm_slave_action_process_sdo: the first SDO request, if any, is
     *  dequeued. When the slave has its error flag set or is in INIT it
     *  fails, the machine goes IDLE and 0 is answered; otherwise it becomes
     *  BUSY and the machine's current SDO request, the machine goes to the
     *  SDO state and 1 is answered. */
    method ActionProcessSdo() returns (r: int)
      modifies this`state, this`sdoRequest, slave`sdoRequests, Head(slave.sdoRequests)`state
      ensures Tail() == old(Tail())
      ensures slave.sdoRequests == Dequeued(old(slave.sdoRequests))
      ensures old(slave.sdoRequests) == [] ==> r == 0 && state == old(state) && sdoRequest == old(sdoRequest)
      ensures old(slave.sdoRequests) != [] && Aborts(slave.currentState) ==>
        var req := old(slave.sdoRequests)[0];
        r == 0 && req.state == Failure && sdoRequest == null && state == Idle
      ensures old(slave.sdoRequests) != [] && !Aborts(slave.currentState) ==>
        var req := old(slave.sdoRequests)[0];
        r == 1 && req.state == Busy && sdoRequest == req && state == SdoTransfer
    {
      if slave.sdoRequests == [] {
        return 0;
      }
      var req := slave.sdoRequests[0];
      slave.sdoRequests := slave.sdoRequests[1..];
      if Aborts(slave.currentState) {
        req.state := Failure;
        sdoRequest := null;
        state := Idle;
        return 0;
      }
      req.state := Busy;
      sdoRequest := req;
      state := SdoTransfer;
      return 1;
    }

    /** ec_fsm_slave_state_sdo_request, given the CoE sub-machine's step:
     *  while it runs nothing changes; once done the request succeeds or
     *  fails as the transfer did, it is no longer the current one, and the
     *  machine is READY again. */
    method StateSdoRequest(step: SubStep)
      requires sdoRequest != null
      modifies this`state, this`sdoRequest, sdoRequest`state
      ensures StatesKept(old(slave.sdoRequests), old(PendingReg()), old(slave.foeRequests), old(slave.soeRequests),
                         old(sdoRequest), false)
      ensures step.Running? ==> state == old(state) && sdoRequest == old(sdoRequest) && sdoRequest.state == old(sdoRequest.state)
      ensures step.Done? ==>
        old(sdoRequest).state == (if step.success then Success else Failure) && sdoRequest == null && state == Ready
    {
      if step.Running? {
        return;
      }
      sdoRequest.state := if step.success then Success else Failure;
      sdoRequest := null;
      state := Ready;
    }

    /** ec_fsm_slave_action_process_reg: the request is the first internal
     *  one in state QUEUED, otherwise the first of the slave's queue, which
     *  is then dequeued; with none, 0 is answered and no request is current.
     *  When the slave has its error flag set the request fails and the
     *  machine goes IDLE; otherwise it becomes BUSY, the datagram is set up
     *  for the read (zeroed) or the write (the request's bytes) and the
     *  machine goes to the register state. Either way 1 is answered. */
    method ActionProcessReg() returns (r: int)
      requires RegSized()
      modifies this`state, this`regRequest, slave`regRequests, PendingSet()`state
      modifies datagram`command, datagram`dataSize, datagram`data, datagram`deviceIndex
      ensures var internal := old(FirstQueued(Internal(), 0));
        slave.regRequests == if internal.None? then Dequeued(old(slave.regRequests)) else old(slave.regRequests)
      ensures old(PendingReg()).None? ==> r == 0 && regRequest == null && state == old(state)
      ensures old(PendingReg()).Some? ==> r == 1 && regRequest == old(PendingReg()).value
      ensures old(PendingReg()).Some? && ErrorFlag(slave.currentState) ==>
        regRequest.state == Failure && state == Idle
      ensures old(PendingReg()).None? || ErrorFlag(slave.currentState) ==> unchanged(datagram)
      ensures old(PendingReg()).Some? && !ErrorFlag(slave.currentState) ==>
        var reg := regRequest;
        && reg.state == Busy && state == RegAccess
        && datagram.deviceIndex == slave.deviceIndex && datagram.dataSize == reg.transferSize
        && datagram.command == (if reg.dir == Input then Fprd(slave.stationAddress, reg.address)
                                else Fpwr(slave.stationAddress, reg.address))
        && datagram.data == (if reg.dir == Input then Zeros(reg.transferSize) else reg.data[..reg.transferSize])
    {
      regRequest := null;
      if slave.config != null {
        var i := FindQueued(slave.config.regRequests);
        if i.Some? {
          regRequest := slave.config.regRequests[i.value];
        }
      }
      if regRequest == null && slave.regRequests != [] {
        regRequest := slave.regRequests[0];
        slave.regRequests := slave.regRequests[1..];
      }
      if regRequest == null {
        return 0;
      }
      if ErrorFlag(slave.currentState) {
        regRequest.state := Failure;
        state := Idle;
        return 1;
      }
      regRequest.state := Busy;
      if regRequest.dir == Input {
        datagram.command := Fprd(slave.stationAddress, regRequest.address);
        datagram.dataSize := regRequest.transferSize;
        datagram.data := Zeros(regRequest.transferSize);
      } else {
        datagram.command := Fpwr(slave.stationAddress, regRequest.address);
        datagram.dataSize := regRequest.transferSize;
        datagram.data := regRequest.data[..regRequest.transferSize];
      }
      datagram.deviceIndex := slave.deviceIndex;
      state := RegAccess;
      return 1;
    }

    /** ec_fsm_slave_state_reg_request: without a current request (the
     *  configuration was cleared) the machine just goes READY. Otherwise
     *  the request fails when the datagram was not received or its
     *  working counter is not 1; with working counter 1 it succeeds, and a
     *  read copies the datagram's bytes into the request's memory. The
     *  machine is READY again either way. */
    method StateRegRequest()
      requires regRequest != null ==> regRequest.transferSize <= |regRequest.data|
      requires regRequest != null && regRequest.dir == Input ==> regRequest.transferSize <= |datagram.data|
      modifies this`state, {regRequest}`state, {regRequest}`data
      ensures StatesKept(old(slave.sdoRequests), old(PendingReg()), old(slave.foeRequests), old(slave.soeRequests),
                         old(regRequest), true)
      ensures state == Ready
      ensures regRequest == old(regRequest)
      ensures regRequest != null ==>
        var reg := regRequest;
        var read := datagram.state == Received && datagram.workingCounter == 1;
        && reg.dir == old(reg.dir) && reg.transferSize == old(reg.transferSize) && reg.address == old(reg.address)
        && reg.state == (if read then Success else Failure)
        && reg.data == (if read && reg.dir == Input
                        then datagram.data[..reg.transferSize] + old(reg.data)[reg.transferSize..]
                        else old(reg.data))
    {
      if regRequest == null {
        state := Ready;
        return;
      }
      if datagram.state != Received {
        regRequest.state := Failure;
        state := Ready;
        return;
      }
      if datagram.workingCounter == 1 {
        if regRequest.dir == Input {
          regRequest.data := datagram.data[..regRequest.transferSize] + regRequest.data[regRequest.transferSize..];
        }
        regRequest.state := Success;
      } else {
        regRequest.state := Failure;
      }
      state := Ready;
    }

    /** ec_fsm_slave_action_process_foe: the first FoE request, if any, is
     *  dequeued. When the slave has its error flag set it fails and 0 is
     *  answered, the machine's state being left as it was (there is no
     *  check for INIT); otherwise it becomes BUSY and the current FoE
     *  request, the machine goes to the FoE state and 1 is answered. */
    method ActionProcessFoe() returns (r: int)
      modifies this`state, this`foeRequest, slave`foeRequests, Head(slave.foeRequests)`state
      ensures slave.foeRequests == Dequeued(old(slave.foeRequests))
      ensures old(slave.foeRequests) == [] || ErrorFlag(slave.currentState) ==>
        r == 0 && state == old(state) && foeRequest == old(foeRequest)
      ensures old(slave.foeRequests) != [] && ErrorFlag(slave.currentState) ==>
        old(slave.foeRequests)[0].state == Failure
      ensures old(slave.foeRequests) != [] && !ErrorFlag(slave.currentState) ==>
        var req := old(slave.foeRequests)[0];
        r == 1 && req.state == Busy && foeRequest == req && state == FoeTransfer
    {
      if slave.foeRequests == [] {
        return 0;
      }
      var req := slave.foeRequests[0];
      slave.foeRequests := slave.foeRequests[1..];
      if ErrorFlag(slave.currentState) {
        req.state := Failure;
        return 0;
      }
      req.state := Busy;
      foeRequest := req;
      state := FoeTransfer;
      return 1;
    }

    /** ec_fsm_slave_state_foe_request, given the FoE sub-machine's step;
     *  as for SDO requests. */
    method StateFoeRequest(step: SubStep)
      requires foeRequest != null
      modifies this`state, this`foeRequest, foeRequest`state
      ensures StatesKept(old(slave.sdoRequests), old(PendingReg()), old(slave.foeRequests), old(slave.soeRequests),
                         old(foeRequest), false)
      ensures step.Running? ==> state == old(state) && foeRequest == old(foeRequest) && foeRequest.state == old(foeRequest.state)
      ensures step.Done? ==>
        old(foeRequest).state == (if step.success then Success else Failure) && foeRequest == null && state == Ready
    {
      if step.Running? {
        return;
      }
      foeRequest.state := if step.success then Success else Failure;
      foeRequest := null;
      state := Ready;
    }

    /** ec_fsm_slave_action_process_soe: as for SDO requests, except that an
     *  aborted request stays the machine's current SoE request. */
    method ActionProcessSoe() returns (r: int)
      modifies this`state, this`soeRequest, slave`soeRequests, Head(slave.soeRequests)`state
      ensures slave.soeRequests == Dequeued(old(slave.soeRequests))
      ensures old(slave.soeRequests) == [] ==> r == 0 && state == old(state) && soeRequest == old(soeRequest)
      ensures old(slave.soeRequests) != [] && Aborts(slave.currentState) ==>
        var req := old(slave.soeRequests)[0];
        r == 0 && req.state == Failure && soeRequest == old(soeRequest) && state == Idle
      ensures old(slave.soeRequests) != [] && !Aborts(slave.currentState) ==>
        var req := old(slave.soeRequests)[0];
        r == 1 && req.state == Busy && soeRequest == req && state == SoeTransfer
    {
      if slave.soeRequests == [] {
        return 0;
      }
      var req := slave.soeRequests[0];
      slave.soeRequests := slave.soeRequests[1..];
      if Aborts(slave.currentState) {
        req.state := Failure;
        state := Idle;
        return 0;
      }
      req.state := Busy;
      soeRequest := req;
      state := SoeTransfer;
      return 1;
    }

    /** ec_fsm_slave_state_soe_request, given the SoE sub-machine's step;
     *  as for SDO requests. */
    method StateSoeRequest(step: SubStep)
      requires soeRequest != null
      modifies this`state, this`soeRequest, soeRequest`state
      ensures StatesKept(old(slave.sdoRequests), old(PendingReg()), old(slave.foeRequests), old(slave.soeRequests),
                         old(soeRequest), false)
      ensures step.Running? ==> state == old(state) && soeRequest == old(soeRequest) && soeRequest.state == old(soeRequest.state)
      ensures step.Done? ==>
        old(soeRequest).state == (if step.success then Success else Failure) && soeRequest == null && state == Ready
    {
      if step.Running? {
        return;
      }
      soeRequest.state := if step.success then Success else Failure;
      soeRequest := null;
      state := Ready;
    }
  }
}
