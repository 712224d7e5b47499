/**
 * The Adapter pattern of the program: a console printer that writes one
 * message's text per line, behind an adapter that prints a whole list.
 * Standard output is modelled as the sequence of lines written so far.
 */
module Printing {
  import opened Messages

  /** The lines printing `ms` writes: one per message, its text, in list order. */
  function Lines(ms: seq<Message>): (lines: seq<string>)
    ensures |lines| == |ms|
    ensures forall j :: 0 <= j < |ms| ==> lines[j] == ms[j].content
  {
    if ms == [] then [] else [ms[0].content] + Lines(ms[1..])
  }

  /** Printing a list extended by one message writes one more line, that message's text. */
  lemma LinesSnoc(ms: seq<Message>, m: Message)
    ensures Lines(ms + [m]) == Lines(ms) + [m.content]
  {
  }

  /** ConsolePrinter: `written` holds the lines sent to standard output. */
  class ConsolePrinter {
    var written: seq<string>

    constructor ()
      ensures written == []
    {
      written := [];
    }

    /** printMessage: writes the message's text as one line. */
    method PrintMessage(msg: Message)
      modifies this
      ensures written == old(written) + [msg.content]
    {
      written := written + [msg.content];
    }
  }

  /** PrinterAdapter: prints a list of messages through its own ConsolePrinter. */
  class PrinterAdapter {
    const printer: ConsolePrinter

    constructor ()
      ensures fresh(printer) && printer.written == []
    {
      printer := new ConsolePrinter();
    }

    /** print: writes one line per message, in list order, after what was already written. */
    method Print(messages: seq<Message>)
      modifies printer
      ensures printer.written == old(printer.written) + Lines(messages)
    {
      for k := 0 to |messages|
        invariant printer.written == old(printer.written) + Lines(messages[..k])
      {
        printer.PrintMessage(messages[k]);
        assert messages[..k + 1] == messages[..k] + [messages[k]];
        LinesSnoc(messages[..k], messages[k]);
      }
      assert messages[..|messages|] == messages;
    }
  }
}
