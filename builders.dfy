/**
 * The Builder pattern of the program: two builder variants that turn raw text
 * into a typed, prefixed Message, and the Director that drives the selected
 * builder.
 */
module Builders {
  import opened Wrappers
  import opened Messages

  /** The two builder variants (AlertMessageBuilder and InfoMessageBuilder). */
  datatype Variant = Alert | Info

  const AlertPrefix := "[ALERT]: "
  const InfoPrefix := "[INFO]: "

  /** The text a variant puts in front of the raw content. */
  function Prefix(v: Variant): (p: string)
    ensures (p == AlertPrefix) == (v == Alert)
    ensures (p == InfoPrefix) == (v == Info)
  {
    match v
    case Alert => AlertPrefix
    case Info => InfoPrefix
  }

  /** The type label a variant gives its messages. */
  function TypeLabel(v: Variant): (l: string)
    ensures (l == "alert") == (v == Alert)
    ensures (l == "info") == (v == Info)
  {
    match v
    case Alert => "alert"
    case Info => "info"
  }

  /** The message a builder of variant `v` makes from raw `content`. */
  function Build(v: Variant, content: string): (m: Message)
    ensures m.kind == TypeLabel(v)
    ensures StartsWith(m.content, Prefix(v))
  {
    Message(Prefix(v) + content, TypeLabel(v))
  }

  /**
   * Reads a built message's text back into the variant and the raw content,
   * or None when the text carries neither prefix.
   */
  function Parse(text: string): (r: Option<(Variant, string)>)
    ensures r.Some? ==> text == Prefix(r.value.0) + r.value.1
    ensures r.None? <==> !StartsWith(text, AlertPrefix) && !StartsWith(text, InfoPrefix)
  {
    if StartsWith(text, AlertPrefix) then Some((Alert, text[|AlertPrefix|..]))
    else if StartsWith(text, InfoPrefix) then Some((Info, text[|InfoPrefix|..]))
    else None
  }

  /** The prefix of one variant never starts the text of the other. */
  lemma PrefixesExclusive(v: Variant, content: string)
    ensures StartsWith(Build(v, content).content, AlertPrefix) <==> v == Alert
    ensures StartsWith(Build(v, content).content, InfoPrefix) <==> v == Info
  {
    var text := Build(v, content).content;
    assert text[1] == Prefix(v)[1];
    assert text[..|Prefix(v)|] == Prefix(v);
  }

  /** Round trip: the variant and the raw content can be read back from a built message. */
  lemma {:induction false} ParseBuild(v: Variant, content: string)
    ensures Parse(Build(v, content).content) == Some((v, content))
  {
    PrefixesExclusive(v, content);
    var text := Build(v, content).content;
    assert text[|Prefix(v)|..] == content;
  }

  /** Building is injective: different variants or raw contents give different messages. */
  lemma {:induction false} BuildInjective(v: Variant, c: string, v': Variant, c': string)
    ensures Build(v, c) == Build(v', c') <==> v == v' && c == c'
  {
    if Build(v, c) == Build(v', c') {
      ParseBuild(v, c);
      ParseBuild(v', c');
    }
  }

  /**
   * Type/prefix consistency: a built message is labelled "alert" iff its text
   * starts with "[ALERT]: ", and "info" iff it starts with "[INFO]: ".
   */
  lemma {:induction false} LabelMatchesPrefix(v: Variant, content: string)
    ensures Build(v, content).kind == "alert" <==> StartsWith(Build(v, content).content, AlertPrefix)
    ensures Build(v, content).kind == "info" <==> StartsWith(Build(v, content).content, InfoPrefix)
  {
    PrefixesExclusive(v, content);
  }

  /**
   * MessageBuilder with its two subclasses folded into one class: `variant`
   * fixes which subclass this builder is, `message` is the nullable field
   * the builder fills.
   */
  class MessageBuilder {
    const variant: Variant
    var message: Option<Message>

    /** A freshly created builder has no message yet. */
    constructor (variant: Variant)
      ensures this.variant == variant && message == None
    {
      this.variant := variant;
      message := None;
    }

    /** createNewMessage: drops the current message. */
    method CreateNewMessage()
      modifies this
      ensures message == None
    {
      message := None;
    }

    /** getMessage: the current message, if any. */
    method GetMessage() returns (m: Option<Message>)
      ensures m == message
    {
      m := message;
    }

    /**
     * buildContent: replaces the message with a new one made from `content`;
     * nothing of an earlier message is kept.
     */
    method BuildContent(content: string)
      modifies this
      ensures message == Some(Build(variant, content))
    {
      message := Some(Build(variant, content));
    }
  }

  /** Director: holds the selected builder and delegates construction to it. */
  class Director {
    var builder: MessageBuilder?

    /** A new director has no builder selected. */
    constructor ()
      ensures builder == null
    {
      builder := null;
    }

    /** setBuilder: selects `b`, replacing any earlier selection. */
    method SetBuilder(b: MessageBuilder?)
      modifies this
      ensures builder == b
    {
      builder := b;
    }

    /**
     * construct: has the selected builder build `content` and returns the
     * builder's message; a builder must have been selected.
     */
    method Construct(content: string) returns (m: Option<Message>)
      requires builder != null
      modifies builder
      ensures m == Some(Build(builder.variant, content))
      ensures builder.message == m
    {
      builder.BuildContent(content);
      m := builder.GetMessage();
    }
  }
}
