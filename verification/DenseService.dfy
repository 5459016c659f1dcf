/** The Master's service object on the dense path: the current round is a shared object that the calls
    inside keep a reference to. Each method is one critical section. */
module DenseService {
  import opened Wrappers
  import opened Gradients
  import opened DenseRounds

  class RoundState {
    const number: nat
    var gradients: map<Worker, seq<Chunk>>
    var response: Option<Response>
    var err: Option<string>
    var waitingReceivers: int

    constructor (number: nat)
      ensures Value() == NewRound(number)
    {
      this.number := number;
      gradients, response, err, waitingReceivers := map[], None, None, 0;
    }

    ghost function Value(): Round
      reads this
    {
      Round(number, gradients, response, err, waitingReceivers)
    }
  }

  class Aggregator {
    var currentRound: RoundState
    var resetJobPending: bool

    constructor ()
      ensures currentRound.Value() == NewRound(1) && !resetJobPending
    {
      currentRound := new RoundState(1);
      resetJobPending := false;
    }

    /** A Worker whose call got through the gate: it stores its gradient and, as the last one expected, averages. */
    method EnterRound(cfg: Config, w: Worker, g: seq<Chunk>) returns (round: RoundState)
      requires !currentRound.Value().Ready()
      modifies currentRound
      ensures round == currentRound == old(currentRound)
      ensures round.Value() == Joined(cfg, old(currentRound.Value()), w, g)
    {
      round := currentRound;
      round.waitingReceivers := round.waitingReceivers + 1;
      round.gradients := round.gradients[w := g];
      if |round.gradients| == cfg.expected {
        match cfg.average(round.gradients) {
          case Average(chunks) => round.response := Some(Response(round.number, chunks));
          case Failure(m) => round.err := Some(m);
        }
      }
    }

    method ResetRound()
      modifies this
      ensures fresh(currentRound) && !resetJobPending
      ensures currentRound.Value() == NewRound(NextNumber(old(currentRound.number), old(resetJobPending)))
    {
      var next := currentRound.number + 1;
      if resetJobPending {
        next := 1;
        resetJobPending := false;
      }
      currentRound := new RoundState(next);
    }

    /** A receiver takes the outcome of the round it joined; the last one opens the next round. */
    method LeaveRound(round: RoundState) returns (response: Option<Response>, err: Option<string>)
      requires round.Value().Ready()
      modifies this, round
      ensures round.Value() == old(round.Value()).(waiting := old(round.waitingReceivers) - 1)
      ensures err == old(round.err)
      ensures response == if err.Some? then None else old(round.response)
      ensures if old(round.waitingReceivers) == 1 then
                && fresh(currentRound) && !resetJobPending
                && currentRound.Value() == NewRound(NextNumber(old(currentRound.number), old(resetJobPending)))
              else currentRound == old(currentRound) && resetJobPending == old(resetJobPending)
    {
      response, err := round.response, round.err;
      round.waitingReceivers := round.waitingReceivers - 1;
      if round.waitingReceivers == 0 {
        ResetRound();
      }
      if err.Some? {
        response := None;
      }
    }

    /** The dense part of an abort. */
    method AbortJob(reason: string, keyedWaiters: bool)
      modifies this, currentRound
      ensures if old(currentRound.waitingReceivers) == 0 && !keyedWaiters then
                fresh(currentRound) && currentRound.Value() == NewRound(1) && !resetJobPending
              else
                && currentRound == old(currentRound) && resetJobPending
                && currentRound.Value() == old(currentRound.Value()).(err := Some("job aborted: " + reason))
    {
      if currentRound.waitingReceivers == 0 && !keyedWaiters {
        currentRound := new RoundState(1);
        resetJobPending := false;
        return;
      }
      resetJobPending := true;
      currentRound.err := Some("job aborted: " + reason);
    }
  }
}
