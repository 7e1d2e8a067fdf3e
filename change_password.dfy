/**
 * components/ChangePasswordModal.tsx: handleSubmit's guards, in their order, the gateway call
 * they let through, and what the modal shows once the gateway answers.
 */
module ChangePasswordModal {
  import opened Types

  const MismatchText: string := "รหัสผ่านใหม่ไม่ตรงกัน"
  const TooShortText: string := "รหัสผ่านต้องมีอย่างน้อย 4 ตัวอักษร"
  const SuccessText: string := "เปลี่ยนรหัสผ่านสำเร็จ!"
  const DefaultErrorText: string := "เกิดข้อผิดพลาด กรุณาลองใหม่"

  /** The shortest new password handleSubmit accepts. */
  const MinLength: nat := 4

  datatype Kind = SuccessMessage | ErrorMessage

  /** The `{ type, text }` message box. */
  datatype Message = Message(kind: Kind, text: string)

  /** The arguments of api.changePassword. */
  datatype ChangeRequest = ChangeRequest(username: string, oldPassword: string, newPassword: string)

  /** The modal's component state. */
  class PasswordForm {
    var oldPassword: string
    var newPassword: string
    var confirmPassword: string
    var isLoading: bool
    var message: Option<Message>

    constructor ()
      ensures oldPassword == "" && newPassword == "" && confirmPassword == ""
      ensures !isLoading && message == None
    {
      oldPassword, newPassword, confirmPassword := "", "", "";
      isLoading, message := false, None;
    }

    /**
     * handleSubmit up to the awaited call. The message is cleared first; a mismatch is reported
     * before a short password; only when both guards pass is the request made, with loading on.
     */
    method Submit(username: string) returns (request: Option<ChangeRequest>)
      modifies this`message, this`isLoading
      ensures newPassword != confirmPassword ==>
        request == None && message == Some(Message(ErrorMessage, MismatchText)) && isLoading == old(isLoading)
      ensures newPassword == confirmPassword && |newPassword| < MinLength ==>
        request == None && message == Some(Message(ErrorMessage, TooShortText)) && isLoading == old(isLoading)
      ensures newPassword == confirmPassword && |newPassword| >= MinLength ==>
        request == Some(ChangeRequest(username, oldPassword, newPassword)) && message == None && isLoading
    {
      message := None;
      if newPassword != confirmPassword {
        message := Some(Message(ErrorMessage, MismatchText));
        return None;
      }
      if |newPassword| < MinLength {
        message := Some(Message(ErrorMessage, TooShortText));
        return None;
      }
      isLoading := true;
      request := Some(ChangeRequest(username, oldPassword, newPassword));
    }

    /** handleSubmit after the gateway answered: the success text, or the gateway's message, or the default error text. */
    method Complete(reply: Reply)
      modifies this`message, this`isLoading
      ensures !isLoading
      ensures IsSuccess(reply) ==> message == Some(Message(SuccessMessage, SuccessText))
      ensures !IsSuccess(reply) && reply.message != "" ==> message == Some(Message(ErrorMessage, reply.message))
      ensures !IsSuccess(reply) && reply.message == "" ==> message == Some(Message(ErrorMessage, DefaultErrorText))
    {
      isLoading := false;
      if IsSuccess(reply) {
        message := Some(Message(SuccessMessage, SuccessText));
      } else if reply.message != "" {
        message := Some(Message(ErrorMessage, reply.message));
      } else {
        message := Some(Message(ErrorMessage, DefaultErrorText));
      }
    }

    /** The timeout after a success: the three fields and the message are cleared (and the parent closes the modal). */
    method ClearAfterSuccess()
      modifies this`oldPassword, this`newPassword, this`confirmPassword, this`message
      ensures oldPassword == "" && newPassword == "" && confirmPassword == "" && message == None
    {
      oldPassword, newPassword, confirmPassword := "", "", "";
      message := None;
    }
  }
}
