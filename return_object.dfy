/**
  The response envelope every service call returns. Its `Message` is not
  stored as such: it is decided on each read by the status, the message a
  caller may have set, and the source tag ("get" unless the constructor is
  given another). The `Data` payload is not modelled.
*/
module Application {

  datatype Option<T> = None | Some(value: T)

  const ErrorMessage: string := "An error occurred"
  const AddedMessage: string := "Record Added Successfully"
  const FetchedMessage: string := "Record fetched successfully"

  class ReturnObject {
    var source: string
    var Status: bool
    /** The backing field of the Message property; None is a null string. */
    var message: Option<string>

    /** `new ReturnObject()` takes the source tag "get"; Status starts false and no message is stored. */
    constructor (sourceType: string := "get")
      ensures source == sourceType && !Status && message == None
    {
      source := sourceType;
      Status := false;
      message := None;
    }

    /** The Message getter. Whatever the state, the message read is never empty. */
    function Message(): (m: string)
      reads this
      ensures m != ""
    {
      if !Status then ErrorMessage
      else if message.Some? && message.value != "" then message.value
      else if source == "post" then AddedMessage
      else FetchedMessage
    }

    /** The Message setter stores the value in the backing field only. */
    method SetMessage(value: string)
      modifies this
      ensures message == Some(value)
      ensures Status == old(Status) && source == old(source)
      ensures Status && value != "" ==> Message() == value
      ensures Status && value == "" ==> Message() == (if source == "post" then AddedMessage else FetchedMessage)
      ensures !Status ==> Message() == ErrorMessage
    {
      message := Some(value);
    }
  }

  /** A failed status hides any stored message. */
  lemma ErrorHidesStoredMessage(r: ReturnObject)
    requires !r.Status
    ensures r.Message() == ErrorMessage
  {
  }

  /** With a successful status, a stored non-empty message is returned as it is. */
  lemma StoredMessageWins(r: ReturnObject)
    requires r.Status && r.message.Some? && r.message.value != ""
    ensures r.Message() == r.message.value
  {
  }

  /** With a successful status and no (or an empty) stored message, the source tag decides. */
  lemma DefaultMessageBySource(r: ReturnObject)
    requires r.Status && (r.message.None? || r.message.value == "")
    ensures r.source == "post" ==> r.Message() == AddedMessage
    ensures r.source != "post" ==> r.Message() == FetchedMessage
  {
  }

  /** The message read is always the error text, the stored message or one of the two defaults. */
  lemma MessageIsOneOf(r: ReturnObject)
    ensures r.Message() in {ErrorMessage, AddedMessage, FetchedMessage}
         || (r.message.Some? && r.Message() == r.message.value)
  {
  }
}
