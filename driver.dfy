/**
 * The program's entry point: classifies ten alternating texts with the
 * keyword "!", builds an alert or info message for each through the
 * Director, collects them in order and prints them through the adapter.
 */
module Driver {
  import opened Wrappers
  import opened Interpreter
  import opened Messages
  import opened Builders
  import opened Printing

  const AlertKeyword := "!"
  const DiskSpaceLow := "!Disk space low!"
  const RunningSmoothly := "System running smoothly."
  /** The loop runs for i = 1 .. MessageCount. */
  const MessageCount := 10

  /** The raw text generated at (1-based) position `i`. */
  function RawContent(i: int): (text: string)
    ensures (text == DiskSpaceLow) == (i % 2 == 1)
    ensures (text == RunningSmoothly) == (i % 2 == 0)
  {
    if i % 2 == 0 then RunningSmoothly else DiskSpaceLow
  }

  /** The keyword expression's verdict on the raw text at position `i`: odd positions only. */
  lemma {:induction false} RawContentAlert(i: int)
    ensures KeywordExpression(AlertKeyword).Interpret(RawContent(i)) <==> i % 2 == 1
  {
    ContainsChar(RawContent(i), '!');
    assert AlertKeyword == ['!'];
    if i % 2 == 0 {
      assert forall j :: 0 <= j < |RunningSmoothly| ==> RunningSmoothly[j] != '!';
    } else {
      assert DiskSpaceLow[0] == '!';
    }
  }

  /** The builder variant the program selects for `text`. */
  function Selected(text: string): (v: Variant)
    ensures (v == Alert) == Contains(text, AlertKeyword)
  {
    if KeywordExpression(AlertKeyword).Interpret(text) then Alert else Info
  }

  /** The message the program builds at (1-based) position `i`. */
  function MessageAt(i: int): (m: Message)
    ensures m.kind == "alert" <==> Contains(RawContent(i), AlertKeyword)
    ensures m.kind == "info" <==> !Contains(RawContent(i), AlertKeyword)
  {
    Build(Selected(RawContent(i)), RawContent(i))
  }

  /** [f(1), ..., f(n)]: what a loop over i = 1 .. n collects when it appends f(i). */
  function Collect<T>(f: int -> T, n: nat): seq<T>
  {
    if n == 0 then [] else Collect(f, n - 1) + [f(n)]
  }

  /** Collecting n values gives n values, the j-th (0-based) being f(j + 1). */
  lemma {:induction false} CollectAt<T>(f: int -> T, n: nat)
    ensures |Collect(f, n)| == n
    ensures forall j :: 0 <= j < n ==> Collect(f, n)[j] == f(j + 1)
  {
    if n > 0 {
      CollectAt(f, n - 1);
    }
  }

  /** The message at a position: the alert one at odd positions, the info one at even ones. */
  lemma {:induction false} MessageAtParity(i: int)
    ensures MessageAt(i) == if i % 2 == 1 then Build(Alert, DiskSpaceLow) else Build(Info, RunningSmoothly)
  {
    RawContentAlert(i);
  }

  /** The alert line as the concatenation the alert builder performs. */
  lemma AlertConcat()
    ensures AlertPrefix + DiskSpaceLow == "[ALERT]: !Disk space low!"
  {
  }

  /** The info line as the concatenation the info builder performs. */
  lemma InfoConcat()
    ensures InfoPrefix + RunningSmoothly == "[INFO]: System running smoothly."
  {
  }

  /** The alert line the program prints, written out. */
  lemma AlertText()
    ensures Build(Alert, DiskSpaceLow).content == "[ALERT]: !Disk space low!"
  {
    assert Build(Alert, DiskSpaceLow).content == AlertPrefix + DiskSpaceLow;
    AlertConcat();
  }

  /** The info line the program prints, written out. */
  lemma InfoText()
    ensures Build(Info, RunningSmoothly).content == "[INFO]: System running smoothly."
  {
    assert Build(Info, RunningSmoothly).content == InfoPrefix + RunningSmoothly;
    InfoConcat();
  }

  /** The line printed for the message of list index `j`, that is of position j + 1, written out. */
  lemma {:induction false} PrintedLine(j: int)
    ensures MessageAt(j + 1).content ==
      if j % 2 == 0 then "[ALERT]: !Disk space low!" else "[INFO]: System running smoothly."
  {
    assert (j + 1) % 2 == 1 <==> j % 2 == 0;
    MessageAtParity(j + 1);
    if j % 2 == 0 {
      AlertText();
    } else {
      InfoText();
    }
  }

  /**
   * The message-building loop of the entry point: the collected list holds,
   * in generation order, the message of each position 1 .. MessageCount.
   */
  method BuildMessages() returns (messages: seq<Message>)
    ensures messages == Collect(MessageAt, MessageCount)
  {
    var director := new Director();
    var isAlert := KeywordExpression(AlertKeyword);
    messages := [];
    for i := 1 to MessageCount + 1
      invariant messages == Collect(MessageAt, i - 1)
    {
      var content := RawContent(i);
      var alert := isAlert.Interpret(content);
      if alert {
        var b := new MessageBuilder(Alert);
        director.SetBuilder(b);
      } else {
        var b := new MessageBuilder(Info);
        director.SetBuilder(b);
      }
      var msg := director.Construct(content);
      messages := messages + [msg.value];
    }
  }

  /** Printing the ten messages of the loop gives the alert and info lines in turn. */
  lemma {:induction false} PrintedLines(messages: seq<Message>)
    requires messages == Collect(MessageAt, MessageCount)
    ensures |Lines(messages)| == MessageCount
    ensures forall j :: 0 <= j < MessageCount ==>
      Lines(messages)[j] == if j % 2 == 0 then "[ALERT]: !Disk space low!" else "[INFO]: System running smoothly."
  {
    CollectAt(MessageAt, MessageCount);
    forall j | 0 <= j < MessageCount
      ensures Lines(messages)[j] == if j % 2 == 0 then "[ALERT]: !Disk space low!" else "[INFO]: System running smoothly."
    {
      assert Lines(messages)[j] == MessageAt(j + 1).content;
      PrintedLine(j);
    }
  }

  /** The whole program: the lines it writes to standard output, in order. */
  method Run() returns (output: seq<string>)
    ensures |output| == MessageCount
    ensures forall j :: 0 <= j < |output| ==>
      output[j] == if j % 2 == 0 then "[ALERT]: !Disk space low!" else "[INFO]: System running smoothly."
  {
    var messages := BuildMessages();
    var adapter := new PrinterAdapter();
    adapter.Print(messages);
    output := adapter.printer.written;
    assert output == Lines(messages);
    PrintedLines(messages);
  }
}
