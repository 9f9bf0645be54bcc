/** The parts of the providers the table depends on: what `Status` and `Stop` of
    `internal/provider/docker/client.go` answer for a row, and the k8s stub. */
module Providers {
  import opened Model

  datatype Phase = PhaseRunning | PhaseSucceeded | PhaseFailed | PhaseStopped | PhaseUnknown

  /** What inspecting a container yields. */
  datatype Inspect =
    | NotFound
    | InspectError
    | NoState
    | Inspected(running: bool, status: string, exitCode: int)

  /** Docker's `Status`; `None` is an error return. */
  function DockerStatus(ref: string, ins: Inspect): Option<Phase> {
    if ref == "" then Some(PhaseUnknown)
    else match ins
      case NotFound => Some(PhaseFailed)
      case InspectError => None
      case NoState => Some(PhaseUnknown)
      case Inspected(running, status, exitCode) =>
        if running then Some(PhaseRunning)
        else if status == "exited" then Some(if exitCode == 0 then PhaseSucceeded else PhaseFailed)
        else if status == "created" || status == "restarting" then Some(PhaseRunning)
        else if status == "dead" || status == "removing" then Some(PhaseFailed)
        else Some(PhaseUnknown)
  }

  datatype Removal = Removed | AlreadyGone | RemoveError

  /** Docker's `Stop`: whether it returns without error.  The outcome of stopping the container
      is ignored; only the removal counts. */
  function DockerStop(ref: string, removal: Removal): bool {
    ref == "" || !removal.RemoveError?
  }

  /** What `Status` may report about a row, whatever the container does. */
  predicate CanReport(r: Row, phase: Phase) {
    match r.prov
    case Docker => !phase.PhaseStopped? && (r.ref == "" ==> phase.PhaseUnknown?)
    case K8s => phase.PhaseUnknown?
    case Unregistered(_) => true
  }

  predicate Gone(phase: Phase) {
    phase.PhaseSucceeded? || phase.PhaseFailed? || phase.PhaseStopped?
  }

  function PhaseStatus(phase: Phase): Status
    requires Gone(phase)
  {
    match phase
    case PhaseSucceeded => Succeeded
    case PhaseFailed => Failed
    case PhaseStopped => Stopped
  }

  /** What docker's `Status` says about a container with a reference, by the container's state:
      running, or about to; ended well; ended otherwise or gone; or nothing to go by. */
  lemma StatusByState(ref: string, ins: Inspect)
    requires ref != ""
    ensures DockerStatus(ref, ins).None? <==> ins.InspectError?
    ensures DockerStatus(ref, ins) == Some(PhaseRunning) <==>
      ins.Inspected? && (ins.running || ins.status == "created" || ins.status == "restarting")
    ensures DockerStatus(ref, ins) == Some(PhaseSucceeded) <==>
      ins.Inspected? && !ins.running && ins.status == "exited" && ins.exitCode == 0
    ensures DockerStatus(ref, ins) == Some(PhaseFailed) <==>
      ins.NotFound? || (ins.Inspected? && !ins.running &&
                        ((ins.status == "exited" && ins.exitCode != 0)
                         || ins.status == "dead" || ins.status == "removing"))
    ensures DockerStatus(ref, ins) != Some(PhaseStopped)
  {
  }

  /** What a caller makes of a look at the row's container: an error counts as nothing known. */
  function Shows(r: Row, ins: Inspect): Phase {
    if !r.prov.Docker? then PhaseUnknown
    else match DockerStatus(r.ref, ins)
      case Some(phase) => phase
      case None => PhaseUnknown
  }

  /** The row has a container that runs, or is about to. */
  predicate IsUp(r: Row, ins: Inspect) {
    && r.prov.Docker? && r.ref != "" && ins.Inspected?
    && (ins.running || ins.status == "created" || ins.status == "restarting")
  }

  /** Its container has ended with exit code 0. */
  predicate EndedWell(r: Row, ins: Inspect) {
    && r.prov.Docker? && r.ref != "" && ins.Inspected?
    && !ins.running && ins.status == "exited" && ins.exitCode == 0
  }

  /** Its container has ended otherwise, is dead or being removed, or does not exist. */
  predicate EndedBadly(r: Row, ins: Inspect) {
    && r.prov.Docker? && r.ref != ""
    && (|| ins.NotFound?
        || (ins.Inspected? && !ins.running
            && ((ins.status == "exited" && ins.exitCode != 0) || ins.status == "dead" || ins.status == "removing")))
  }

  /** What callers see is what the container does, and an error is never taken for an end. */
  lemma ShowsByState(r: Row, ins: Inspect)
    ensures Shows(r, ins).PhaseRunning? <==> IsUp(r, ins)
    ensures Shows(r, ins).PhaseSucceeded? <==> EndedWell(r, ins)
    ensures Shows(r, ins).PhaseFailed? <==> EndedBadly(r, ins)
    ensures Gone(Shows(r, ins)) <==> EndedWell(r, ins) || EndedBadly(r, ins)
    ensures EndedWell(r, ins) ==> PhaseStatus(Shows(r, ins)) == Succeeded
    ensures EndedBadly(r, ins) ==> PhaseStatus(Shows(r, ins)) == Failed
  {
    if r.prov.Docker? && r.ref != "" {
      StatusByState(r.ref, ins);
    }
  }

  /** The rule the state machine uses is exact: docker can report a phase about a row if and only if
      some state of the container makes it do so. */
  lemma CanReportIff(r: Row, phase: Phase)
    requires r.prov.Docker?
    ensures CanReport(r, phase) <==> exists ins :: DockerStatus(r.ref, ins) == Some(phase)
  {
    if r.ref == "" {
      assert DockerStatus(r.ref, NoState) == Some(PhaseUnknown);
    } else {
      assert DockerStatus(r.ref, NoState) == Some(PhaseUnknown);
      assert DockerStatus(r.ref, NotFound) == Some(PhaseFailed);
      assert DockerStatus(r.ref, Inspected(true, "", 0)) == Some(PhaseRunning);
      assert DockerStatus(r.ref, Inspected(false, "exited", 0)) == Some(PhaseSucceeded);
    }
  }

  /** `Status` of the row's provider.  What inspecting the container yields is not ours to know. */
  method QueryStatus(r: Row) returns (phase: Option<Phase>, ghost ins: Inspect)
    requires Registered(r.prov)
    ensures phase == if r.prov.Docker? then DockerStatus(r.ref, ins) else Some(PhaseUnknown)
    ensures phase.Some? ==> CanReport(r, phase.value)
  {
    ins := NoState;
    if r.prov.Docker? {
      var state: Inspect := *;
      ins := state;
      phase := DockerStatus(r.ref, state);
    } else {
      phase := Some(PhaseUnknown);
    }
  }

  /** `Stop` of the row's provider: only a removal that fails on an existing container of a row with a
      reference makes it fail; a container already gone counts as stopped. */
  method Stop(r: Row) returns (ok: bool, ghost removal: Removal)
    requires Registered(r.prov)
    ensures ok <==> r.prov.K8s? || r.ref == "" || !removal.RemoveError?
  {
    removal := Removed;
    if r.prov.Docker? {
      var outcome: Removal := *;
      removal := outcome;
      ok := DockerStop(r.ref, outcome);
    } else {
      ok := true;
    }
  }
}
