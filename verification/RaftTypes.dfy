/**
 The values the consensus code passes around: node identifiers, log entries and
 the four request and response messages of the Raft service.
 */
module RaftTypes {

  /** Server identifiers are positive; 0 means "nobody", as in `voted_for_` and `leader_id_`. */
  type Id = nat

  const NOBODY: Id := 0

  datatype Option<T> = None | Some(value: T) {
    function Or(other: T): T { if Some? then value else other }
  }

  /** What an entry asks of the key-value store. A request that holds neither a
      write nor a remove, or that does not parse, changes nothing. */
  datatype Command = Write(key: string, value: string) | Remove(key: string) | Unknown

  datatype Payload = Noop | Normal(command: Command)

  datatype Entry = Entry(term: nat, payload: Payload)

  /** The log of a node that was never compacted: index k of the source is position k - 1 here. */
  type Log = seq<Entry>

  datatype Role = Follower | Candidate | Leader

  /** The entry that the bootstrap run writes at index 1. */
  const BOOT_ENTRY := Entry(1, Noop)

  function LastTerm(log: Log): nat {
    if log == [] then 0 else log[|log| - 1].term
  }

  /** The comparison a voter makes between a candidate's last entry and its own. */
  predicate LogOk(lastTerm: nat, lastIndex: nat, log: Log) {
    || lastTerm > LastTerm(log)
    || (lastTerm == LastTerm(log) && lastIndex >= |log|)
  }

  datatype Message =
    | VoteRequest(src: Id, term: nat, lastIndex: nat, lastTerm: nat, epoch: nat)
    | VoteResponse(src: Id, dst: Id, term: nat, granted: bool, epoch: nat)
    | AppendRequest(src: Id, dst: Id, term: nat, prev: nat, prevTerm: nat,
                    entries: seq<Entry>, commit: nat, epoch: nat)
    | AppendResponse(src: Id, dst: Id, term: nat, success: bool, last: nat, epoch: nat)

  function Max(a: nat, b: nat): nat { if a < b then b else a }

  function Min(a: nat, b: nat): nat { if a < b then a else b }
}
