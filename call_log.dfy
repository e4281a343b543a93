// The record of runtime calls kept by the testing runtime.

module CallLog {

  /** One runtime entry point invocation; `Column` keeps the index value and the field text. */
  datatype Call =
    | NextLine
    | Column(index: real, text: string)
    | FreeString
    | StringToNumber
    | CopyString
    | NumberToString
    | PrintString
    | PrintFloat

  class CallLog {
    var log: seq<Call>

    constructor()
      ensures log == []
    {
      log := [];
    }

    /** Append-only: one entry longer, the new entry last, every earlier entry kept. */
    method Log(call: Call)
      modifies this
      ensures |log| == |old(log)| + 1
      ensures log[|log| - 1] == call
      ensures log[..|old(log)|] == old(log)
    {
      log := log + [call];
    }
  }
}
