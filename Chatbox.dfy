/** The chat box of the oldest front end: an input field and a list of sent lines. The
    send callback the box is given is recorded as the list of texts handed to it. */
module Chatbox {
  import opened Text

  datatype Sender = Patient | Doctor

  /** A line of the box. */
  datatype Line = Line(text: string, sender: Sender)

  class Box {
    var messages: seq<Line>
    var inputValue: string
    var delivered: seq<string>

    /** Every line was sent by the patient, is non-blank, and was handed to the send
        callback, in the same order. */
    ghost predicate Valid()
      reads this
    {
      && |messages| == |delivered|
      && forall k :: 0 <= k < |messages| ==> messages[k] == Line(delivered[k], Patient) && Trim(delivered[k]) != []
    }

    constructor()
      ensures Valid()
      ensures messages == [] && inputValue == [] && delivered == []
    {
      messages := [];
      inputValue := [];
      delivered := [];
    }

    /** Typing replaces the input. */
    method SetInput(text: string)
      requires Valid()
      modifies this
      ensures Valid()
      ensures inputValue == text && messages == old(messages) && delivered == old(delivered)
    {
      inputValue := text;
    }

    /** Sending: a blank input changes nothing and calls nothing; otherwise the input,
        untrimmed, is appended as a patient line, handed once to the callback, and the
        input is cleared. */
    method Send()
      requires Valid()
      modifies this
      ensures Valid()
      ensures Trim(old(inputValue)) == [] ==>
        messages == old(messages) && delivered == old(delivered) && inputValue == old(inputValue)
      ensures Trim(old(inputValue)) != [] ==>
        && messages == old(messages) + [Line(old(inputValue), Patient)]
        && delivered == old(delivered) + [old(inputValue)]
        && inputValue == []
    {
      if Trim(inputValue) != [] {
        messages := messages + [Line(inputValue, Patient)];
        delivered := delivered + [inputValue];
        inputValue := [];
      }
    }

    /** A key press: Enter sends exactly as the button does; any other key does
        nothing. */
    method KeyPress(key: string)
      requires Valid()
      modifies this
      ensures Valid()
      ensures key != "Enter" ==>
        messages == old(messages) && delivered == old(delivered) && inputValue == old(inputValue)
      ensures key == "Enter" && Trim(old(inputValue)) == [] ==>
        messages == old(messages) && delivered == old(delivered) && inputValue == old(inputValue)
      ensures key == "Enter" && Trim(old(inputValue)) != [] ==>
        && messages == old(messages) + [Line(old(inputValue), Patient)]
        && delivered == old(delivered) + [old(inputValue)]
        && inputValue == []
    {
      if key == "Enter" {
        Send();
      }
    }
  }
}
