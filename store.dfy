/** The message table as the pipeline uses it: rows are only ever added. */
module Store {
  import opened Models

  class MessageStore {
    var records: seq<MessageRecord>

    constructor (initial: seq<MessageRecord>)
      ensures records == initial
    {
      records := initial;
    }

    /** `add_message`: the row is appended and no existing row changes. */
    method AddMessage(m: MessageRecord)
      modifies this
      ensures records == old(records) + [m]
    {
      records := records + [m];
    }
  }

  /** The sequence numbers of the rows of one chat, in table order. */
  function SequencesOf(records: seq<MessageRecord>, chatId: int): (s: seq<int>)
    ensures forall i :: 0 <= i < |records| && records[i].chatId == chatId ==> records[i].sequence in s
    ensures forall x :: x in s ==> exists i :: 0 <= i < |records| && records[i].chatId == chatId && records[i].sequence == x
  {
    if records == [] then []
    else
      var rest := SequencesOf(records[1..], chatId);
      assert forall i :: 1 <= i < |records| ==> records[i] == records[1..][i - 1];
      if records[0].chatId == chatId then [records[0].sequence] + rest else rest
  }
}
