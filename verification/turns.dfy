/** The one record the browser and the chat endpoint exchange. */
module Turns {

  /** One entry of the transcript; `timestamp` is the browser's
      `toLocaleTimeString()` at the moment the entry was created. */
  datatype ChatTurn = ChatTurn(message: string, isUser: bool, timestamp: string)
}
