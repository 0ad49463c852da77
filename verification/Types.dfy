/** Values shared by every layer: node identities, commands, log entries and roles. */
module Types {

  type Id = string

  datatype Option<+T> = None | Some(value: T)

  /** A decoded KVCommand, or a payload that does not decode. */
  datatype Command =
    | Put(key: string, value: string)
    | Update(key: string, value: string)
    | Delete(key: string)
    | Unreadable

  /** What an empty payload decodes to: every field has its default, and the default operation is PUT. */
  const BLANK: Command := Put("", "")

  /** One entry of the replicated log; indices start at 1. */
  datatype Entry = Entry(term: nat, index: nat, command: Command)

  type Log = seq<Entry>

  datatype Role = Follower | Candidate | Leader

  /** Term of the entry at a 1-based index of a full log; 0 for "no entry". */
  function TermAt(log: Log, index: nat): nat {
    if 0 < index <= |log| then log[index - 1].term else 0
  }

  function LastTerm(log: Log): nat {
    TermAt(log, |log|)
  }

  function Max(a: nat, b: nat): nat {
    if a < b then b else a
  }

  function Min(a: nat, b: nat): nat {
    if a < b then a else b
  }
}
