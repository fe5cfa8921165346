/** The log that `GeneralHelper::addTolog` writes to, as an append-only
    sequence of labelled entries. Whether the helper writes an entry
    through to a file is not modelled: the sequence holds every call. */
module Logging {
  import opened Json

  /** The second argument of `addTolog`: an array, a status or a text. */
  datatype Logged = LoggedArray(value: Value) | LoggedStatus(status: int) | LoggedText(text: string)

  datatype Entry = Entry(tag: string, data: Logged)

  class Logger {
    var entries: seq<Entry>

    constructor ()
      ensures entries == []
    {
      entries := [];
    }

    /** `addTolog($tag, $data)`: appends one entry and never fails. */
    method AddToLog(tag: string, data: Logged)
      modifies this
      ensures entries == old(entries) + [Entry(tag, data)]
    {
      entries := entries + [Entry(tag, data)];
    }
  }
}
