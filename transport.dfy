/** What the bot hands to the messaging transport, recorded as events in the
    order it sends them. Chat and message identifiers are left implicit: each
    handler talks to one chat, and DeleteMessage removes the "please wait"
    notice that handler sent. */
module Transport {

  /** An inline keyboard button: its text and the callback payload it carries. */
  datatype Button = Button(text: string, data: string)

  datatype Event =
    | SendText(text: string, buttons: seq<Button>)
    | SendPhoto(photo: string, caption: string, buttons: seq<Button>)
    | SendAudio(caption: string)
    | SendVideo(caption: string)
    | AnswerCallback(text: string)
    | DeleteMessage

  /** The event delivers a media file. */
  predicate IsMedia(e: Event) {
    e.SendAudio? || e.SendVideo?
  }
}
