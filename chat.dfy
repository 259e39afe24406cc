/** What the bot sends to the chat, by role. The wording of the texts and the layout of
    the keyboards are not modelled; the callback data of the inline buttons are. */
module Chat {
  import opened Base

  datatype Notice =
    | Greeting           // reply to /start, with the main menu
    | MainMenu           // the second-level menu
    | HelpText
    | ProfileText
    | ModelMenu          // "choose a model", with the model keyboard
    | PromptRequest      // "write a description of the image"
    | GeneratingNotice   // sent before generating
    | ReadyCaption       // caption of a delivered photo
    | GenerationError    // the generator returned nothing usable
    | RegeneratingNotice // callback answer of "repeat"
    | NoRepeatData       // "repeat" without a stored model or prompt
    | SendError          // delivery fallback after three network errors

  /** An inline button, known by its callback data. */
  datatype Button = Button(callbackData: string)

  type Keyboard = seq<Button>

  const KandinskyChoice: string := "model_kandinsky"
  const SdChoice: string := "model_sd"

  const ModelKeyboard: Keyboard := [Button(KandinskyChoice), Button(SdChoice)]

  /** The keyboard attached to a generated image. */
  const ActionsKeyboard: Keyboard := [Button("repeat"), Button("new")]

  /** An outbound action: a text, a photo attempt, a pause, or an answer to a callback query. */
  datatype Action =
    | SendText(notice: Notice, buttons: Keyboard)
    | SendPhoto(image: Image, caption: Notice, buttons: Keyboard)
    | Pause(seconds: nat)
    | AnswerCallback(answer: Option<Notice>)
}
