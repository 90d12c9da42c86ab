/** The outcome codes of `openmux/server/access_decision.py` and the result of one request. */
module AccessDecision {
  import opened Prelude
  import opened PortSeats

  datatype Code =
    | AttachedCode | ReadOnlyStanding | CapacityFull | CapacityNone
    | Granted | AlreadyRw | Released
    | NoPermissions | DeniedByGroupAcl | DeniedByAccessDefault | NotEntitled | InvalidTarget | DemoteFailed
    | PortUnavailable | NotAttached | PortMissing | NoHolder | VictimNotCurrent | TakeWithoutSlot | NoWriteSlot
    | PromoteFailed | FederationDenied | Internal | UnsupportedRequest
    | Demoted | ActionSelfDemoted | ActionRestored | ActionRestoreDenied

  datatype Kind = Grant | Refusal | Unavailable | Notice

  function KindOf(code: Code): Kind {
    match code
    case AttachedCode | ReadOnlyStanding | CapacityFull | CapacityNone | Granted | AlreadyRw | Released => Grant
    case NoPermissions | DeniedByGroupAcl | DeniedByAccessDefault | NotEntitled | InvalidTarget | DemoteFailed =>
      Refusal
    case Demoted | ActionSelfDemoted | ActionRestored | ActionRestoreDenied => Notice
    case _ => Unavailable
  }

  // The `ok` column of the outcome table.
  predicate Ok(code: Code) { KindOf(code).Grant? || code.ActionRestored? }

  // An answer to a request. Notices are never answers.
  datatype Decision = Decision(code: Code, mode: Mode, victim: Option<ClientId>)
  {
    predicate Grants() { Ok(code) }
  }

  function Decide(code: Code, mode: Mode): Decision
    requires !KindOf(code).Notice?
  {
    Decision(code, mode, None)
  }
}
