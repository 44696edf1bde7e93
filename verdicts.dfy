/** The outcome of one evaluation of a check. The violation-level engine that
    consumes it is not part of this model. */
module Verdicts {

  datatype Verdict =
    | NoVerdict                 // the event was not judged: neither reward nor punish
    | Reward                    // the check passed; the engine decays the violation level
    | Punish(rubberband: bool)  // the check failed; true for `punishAndTryRubberband`,
                                // false for a plain `punish`, whose own flag is not interpreted
}
