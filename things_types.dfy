/** Values shared by every part of the chaining executor: the message being
    dispatched, the stream direction, and what can be thrown. */
module ThingsTypes {

  datatype Option<+T> = None | Some(value: T)

  datatype Result<+R, +E> = Ok(value: R) | Err(error: E)

  /** ThingsStreamingType: a message flows into the platform or out of it. */
  datatype StreamingType = INPUTTING | OUTPUTTING {
    /** The enum constant's name, as string concatenation renders it. */
    function Name(): string {
      match this
      case INPUTTING => "INPUTTING"
      case OUTPUTTING => "OUTPUTTING"
    }
  }

  /** The identity fields of a JsonThingsMessage that dispatch reads: the dotted
      method name and the product code of its base metadata. */
  datatype Message = Message(methodName: string, productCode: string)

  /** ThingsConstants.ErrorCodes, as far as the executor uses them. */
  datatype ErrorCode = SERVICE_UNAVAILABLE

  const NO_HANDLER_MESSAGE: string := "Can not handler this things message"

  /** A Throwable raised by plugin code. `isException` is false for a
      java.lang.Error, which `catch (Exception e)` does not catch. */
  datatype Thrown = Thrown(id: nat, isException: bool)

  /** What a dispatch can end with instead of returning normally. */
  datatype Failure =
    | ThingsException(jtm: Message, code: ErrorCode, message: string)
    | ArrayIndexOutOfBounds(index: int, length: int)
    | PluginThrew(thrown: Thrown)
}
