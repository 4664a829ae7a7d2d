/**
 * The `UILabel` extension: the two initialisers, the setters that change one property
 * each, `underlined`, and the subscriber that writes a publisher's strings into a label.
 */
module Labels {
  import opened Wrappers
  import opened Views

  /** A `UIColor`, by identity; `LabelColor` is the label's default text colour. */
  datatype Color = LabelColor | Custom(id: nat)

  datatype LineBreakMode =
    | ByWordWrapping | ByCharWrapping | ByClipping
    | ByTruncatingHead | ByTruncatingTail | ByTruncatingMiddle

  /**
   * A label's attributed text: the plain attributed form of `text` (what setting `text`
   * leaves), or the text with a single underline over its whole range.
   */
  datatype AttributedText = Plain(text: string) | SingleUnderlined(text: string)

  /** A label, reduced to the properties this extension reads or writes. */
  class Label {
    var text: Option<string>
    var attributedText: Option<AttributedText>
    var textColor: Color
    var numberOfLines: int
    var lineBreakMode: LineBreakMode

    /** `init(frame: .zero)`: the toolkit's defaults, no text, one line, truncating at the tail. */
    constructor ()
      ensures text == None && attributedText == None
      ensures textColor == LabelColor && numberOfLines == 1 && lineBreakMode == ByTruncatingTail
    {
      text := None;
      attributedText := None;
      textColor := LabelColor;
      numberOfLines := 1;
      lineBreakMode := ByTruncatingTail;
    }

    /** `init(_ content:)` with a string: the text is exactly the content. */
    constructor WithText(content: string)
      ensures text == Some(content) && attributedText == Some(Plain(content))
      ensures textColor == LabelColor && numberOfLines == 1 && lineBreakMode == ByTruncatingTail
    {
      text := Some(content);
      attributedText := Some(Plain(content));
      textColor := LabelColor;
      numberOfLines := 1;
      lineBreakMode := ByTruncatingTail;
    }

    /** `textColor(_:)`: a colour replaces the text colour; nil leaves it as it was. Returns the label itself. */
    method TextColor(color: Option<Color>) returns (r: Label)
      modifies this`textColor
      ensures r == this
      ensures textColor == if color.Some? then color.value else old(textColor)
    {
      if color.Some? {
        textColor := color.value;
      }
      r := this;
    }

    /** `lines(_:)`: the number of lines becomes `n`, nothing else changes. */
    method Lines(n: int) returns (r: Label)
      modifies this`numberOfLines
      ensures r == this && numberOfLines == n
    {
      numberOfLines := n;
      r := this;
    }

    /** `lineBreak(_:)`: the line break mode becomes `mode`, nothing else changes. */
    method LineBreak(mode: LineBreakMode) returns (r: Label)
      modifies this`lineBreakMode
      ensures r == this && lineBreakMode == mode
    {
      lineBreakMode := mode;
      r := this;
    }

    /**
     * `underlined()`: the attributed text becomes the current text, underlined once.
     * The text is force-unwrapped, so a label without text stops the program.
     */
    method Underlined() returns (r: Label)
      requires text.Some?
      modifies this`attributedText
      ensures r == this && attributedText == Some(SingleUnderlined(text.value))
    {
      attributedText := Some(SingleUnderlined(text.value));
      r := this;
    }

    /** `subscriber`: a new subscriber holding this label. */
    method Subscriber() returns (subscriber: LabelTextSubscriber)
      ensures fresh(subscriber) && subscriber.heldLabel == this
    {
      subscriber := new LabelTextSubscriber(this);
    }
  }

  /**
   * `UILabelTextSubscriber`: holds its label strongly until the publisher completes, writes
   * every string it receives into the label's text, and always asks for more.
   */
  class LabelTextSubscriber {
    var heldLabel: Label?

    constructor (target: Label)
      ensures this.heldLabel == target
    {
      this.heldLabel := target;
    }

    /** `receive(subscription:)`: the subscriber requests an unlimited number of strings. */
    method ReceiveSubscription() returns (request: Demand)
      ensures request == Unlimited
    {
      request := Unlimited;
    }

    /**
     * `receive(_:)`: a held label's text becomes the input, which also replaces any attributed
     * text with the plain input; without a label nothing changes.
     */
    method ReceiveInput(input: string) returns (more: Demand)
      modifies heldLabel
      ensures more == Unlimited
      ensures heldLabel == old(heldLabel)
      ensures heldLabel != null ==>
        heldLabel.text == Some(input) && heldLabel.attributedText == Some(Plain(input))
      ensures heldLabel != null ==>
        heldLabel.textColor == old(heldLabel.textColor) &&
        heldLabel.numberOfLines == old(heldLabel.numberOfLines) &&
        heldLabel.lineBreakMode == old(heldLabel.lineBreakMode)
    {
      if heldLabel != null {
        heldLabel.text := Some(input);
        heldLabel.attributedText := Some(Plain(input));
      }
      more := Unlimited;
    }

    /** `receive(completion:)`: the label is released; doing so again changes nothing. */
    method ReceiveCompletion()
      modifies this
      ensures heldLabel == null
    {
      heldLabel := null;
    }
  }

  /**
   * `init(_ contentPublisher:)`: a new label with the toolkit's defaults, subscribed to the
   * publisher through a new subscriber that holds it and asks for every string. `sent` is what
   * the publisher sends as soon as it is asked (a `@Published` property or `Just` sends its
   * current value then): each string is written in turn before the initialiser returns.
   * `completed` says whether the publisher also finishes then (as `Just` and `Empty` do), in
   * which case the subscriber has already released the label.
   */
  method LabelWithPublisher(sent: seq<string>, completed: bool)
    returns (target: Label, subscriber: LabelTextSubscriber, request: Demand)
    ensures fresh(target) && fresh(subscriber)
    ensures subscriber.heldLabel == if completed then null else target
    ensures target.text == if sent == [] then None else Some(sent[|sent| - 1])
    ensures target.attributedText == if sent == [] then None else Some(Plain(sent[|sent| - 1]))
    ensures target.textColor == LabelColor
    ensures target.numberOfLines == 1 && target.lineBreakMode == ByTruncatingTail
    ensures request == Unlimited
  {
    target := new Label();
    subscriber := target.Subscriber();
    request := subscriber.ReceiveSubscription();
    var i := 0;
    while i < |sent|
      invariant 0 <= i <= |sent|
      invariant fresh(target) && fresh(subscriber) && subscriber.heldLabel == target
      invariant target.text == if i == 0 then None else Some(sent[i - 1])
      invariant target.attributedText == if i == 0 then None else Some(Plain(sent[i - 1]))
      invariant target.textColor == LabelColor
      invariant target.numberOfLines == 1 && target.lineBreakMode == ByTruncatingTail
    {
      var more := subscriber.ReceiveInput(sent[i]);
      i := i + 1;
    }
    if completed {
      subscriber.ReceiveCompletion();
    }
  }

  /** Once completed, a subscriber changes nothing: a later string leaves the label as it was. */
  method CompletedSubscriberIgnoresInput(subscriber: LabelTextSubscriber, target: Label, input: string)
    requires subscriber.heldLabel == target
    modifies subscriber, target
    ensures subscriber.heldLabel == null && unchanged(target)
  {
    subscriber.ReceiveCompletion();
    subscriber.ReceiveCompletion();
    var more := subscriber.ReceiveInput(input);
  }
}
