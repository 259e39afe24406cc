/** The conversation: aiogram's routing of an event to a handler by the user's FSM state,
    and the handlers create, choose_model, gen and repeat_or_new acting on one user's
    state, stored data and outgoing messages. Generators and the chat transport are oracles. */
module Bot {
  import opened Base
  import opened Chat
  import opened Delivery
  import Kandinsky
  import StableDiffusion

  /** The user's FSM state; Idle is aiogram's "no state". */
  datatype FormState = Idle | ChoosingModel | WaitingForPrompt

  /** The keys of the per-user data dictionary. */
  datatype DataKey = Model | LastModel | LastPrompt

  /** An inbound update: a text message or a callback query with its data. */
  datatype Event = Message(text: string) | Callback(data: string)

  datatype Handler =
    | StartHandler | ShowMenuHandler | CreateHandler | HelpHandler | ProfileHandler
    | ChooseModelHandler | GenHandler | RepeatOrNewHandler | NoHandler

  const MenuLabel: string := "Меню"
  const CreateLabel: string := "🖼 Создать изображение"
  const HelpLabel: string := "ℹ️ Помощь"
  const ProfileLabel: string := "👤 Профиль"

  const ModelChoices: seq<string> := [KandinskyChoice, SdChoice]
  const ActionChoices: seq<string> := ["repeat", "new"]

  /** The /start command, bare or with arguments. */
  predicate IsStartCommand(text: string)
  {
    text == "/start" || (|text| > 6 && text[..7] == "/start ")
  }

  /** No menu label is a command. */
  lemma LabelsAreNotCommands()
    ensures !IsStartCommand(MenuLabel) && !IsStartCommand(CreateLabel)
    ensures !IsStartCommand(HelpLabel) && !IsStartCommand(ProfileLabel)
  {
    assert MenuLabel[0] != '/' && CreateLabel[0] != '/' && HelpLabel[0] != '/' && ProfileLabel[0] != '/';
    assert "/start "[0] == '/';
  }

  /** aiogram's dispatch: handlers are tried in registration order and a handler registered
      without a state filter only matches a user who has no state. */
  function Route(state: FormState, e: Event): (h: Handler)
    ensures h == CreateHandler <==> state == Idle && e == Message(CreateLabel)
    ensures h == ChooseModelHandler <==> state == ChoosingModel && e.Callback? && e.data in ModelChoices
    ensures h == GenHandler <==> state == WaitingForPrompt && e.Message?
    ensures h == RepeatOrNewHandler <==> state == Idle && e.Callback? && e.data in ActionChoices
    ensures h == StartHandler <==> state == Idle && e.Message? && IsStartCommand(e.text)
    ensures h == ShowMenuHandler <==> state == Idle && e == Message(MenuLabel)
    ensures h == HelpHandler <==> state == Idle && e == Message(HelpLabel)
    ensures h == ProfileHandler <==> state == Idle && e == Message(ProfileLabel)
  {
    LabelsAreNotCommands();
    match e
    case Message(text) =>
      if state == Idle then
        if IsStartCommand(text) then StartHandler
        else if text == MenuLabel then ShowMenuHandler
        else if text == CreateLabel then CreateHandler
        else if text == HelpLabel then HelpHandler
        else if text == ProfileLabel then ProfileHandler
        else NoHandler
      else if state == WaitingForPrompt then GenHandler
      else NoHandler
    case Callback(data) =>
      if state == ChoosingModel && data in ModelChoices then ChooseModelHandler
      else if state == Idle && data in ActionChoices then RepeatOrNewHandler
      else NoHandler
  }

  /** The one text each menu handler sends. */
  function MenuReply(h: Handler): Notice
  {
    match h
    case StartHandler => Greeting
    case ShowMenuHandler => MainMenu
    case HelpHandler => HelpText
    case _ => ProfileText
  }

  /** Every inline button the bot sends reaches a handler in the state it is sent for:
      the model buttons while choosing a model, the repeat/new buttons once idle. */
  lemma ButtonsReachHandlers()
    ensures forall b :: b in ModelKeyboard ==> Route(ChoosingModel, Callback(b.callbackData)) == ChooseModelHandler
    ensures forall b :: b in ActionsKeyboard ==> Route(Idle, Callback(b.callbackData)) == RepeatOrNewHandler
  {
  }

  /** While waiting for a prompt every text is the prompt, menu labels and /start included;
      while choosing a model no text is handled. */
  lemma TextRoutingOutsideIdle(text: string)
    ensures Route(WaitingForPrompt, Message(text)) == GenHandler
    ensures Route(ChoosingModel, Message(text)) == NoHandler
    ensures Route(WaitingForPrompt, Callback(text)) == NoHandler
  {
  }

  /** The backends as seen by one generation and its delivery. */
  datatype World = World(
    kandinsky: Kandinsky.Service,
    sd: StableDiffusion.HttpReply,
    delivery: nat -> SendOutcome)

  /** One invocation of a generator. */
  datatype GenerationRequest = GenerationRequest(model: string, prompt: string)

  /** The image the generator chosen by `model` returns: Kandinsky for "model_kandinsky",
      Stable Diffusion for any other model. */
  function Generated(model: string, prompt: string, w: World): Option<Image>
  {
    if model == KandinskyChoice then
      match Kandinsky.KandinskyRun(prompt, w.kandinsky).0
      case Some(bytes) => Some(RawBytes(bytes))
      case None => None
    else StableDiffusion.GenerateSd(w.sd)
  }

  method Generate(model: string, prompt: string, w: World) returns (img: Option<Image>)
    ensures img == Generated(model, prompt, w)
    ensures model == KandinskyChoice ==> img.Some? == Kandinsky.KandinskyRun(prompt, w.kandinsky).0.Some?
    ensures model != KandinskyChoice ==> img == StableDiffusion.GenerateSd(w.sd)
  {
    if model == KandinskyChoice {
      var bytes, _ := Kandinsky.GenerateKandinsky(prompt, w.kandinsky);
      img := if bytes.Some? then Some(RawBytes(bytes.value)) else None;
    } else {
      img := StableDiffusion.GenerateSd(w.sd);
    }
  }

  /** What gen and repeat send once the generator has answered, and whether delivery raised. */
  function Answer(img: Option<Image>, attempts: nat -> SendOutcome): (bool, seq<Action>)
  {
    if Truthy(img) then
      (DeliveryOf(attempts) == Raised, DeliveryTrace(img.value, ActionsKeyboard, FirstNonNetwork(attempts, 0)))
    else (false, [SendText(GenerationError, [])])
  }

  method Respond(img: Option<Image>, attempts: nat -> SendOutcome) returns (raised: bool, actions: seq<Action>)
    ensures (raised, actions) == Answer(img, attempts)
  {
    if Truthy(img) {
      var outcome;
      outcome, actions := SendImageWithActions(img.value, attempts);
      raised := outcome == Raised;
    } else {
      raised, actions := false, [SendText(GenerationError, [])];
    }
  }

  /** The image goes out first, with the repeat/new keyboard, when the generator's result is
      truthy; otherwise only the generation-error text goes out, and nothing raises. */
  lemma AnswerByTruthiness(img: Option<Image>, attempts: nat -> SendOutcome)
    ensures Truthy(img) ==> |Answer(img, attempts).1| > 0 &&
                            Answer(img, attempts).1[0] == SendPhoto(img.value, ReadyCaption, ActionsKeyboard)
    ensures !Truthy(img) ==> Answer(img, attempts) == (false, [SendText(GenerationError, [])])
    ensures Answer(img, attempts).0 ==> Truthy(img) && DeliveryOf(attempts) == Raised
  {
    if Truthy(img) {
      DeliveryStartsWithPhoto(img.value, ActionsKeyboard, FirstNonNetwork(attempts, 0));
    }
  }

  /** Empty Kandinsky bytes are a generation failure: an illustration of AnswerByTruthiness. */
  lemma EmptyBytesAreAFailure(attempts: nat -> SendOutcome)
    ensures Answer(Some(RawBytes([])), attempts) == (false, [SendText(GenerationError, [])])
  {
  }

  /** A stored model and prompt that repeat accepts: both present and non-empty. */
  predicate HasRepeatData(data: map<DataKey, string>)
  {
    LastModel in data && data[LastModel] != "" && LastPrompt in data && data[LastPrompt] != ""
  }

  /** One user's conversation. `finishClearsData` says whether finishing the FSM also wipes the
      stored data, as aiogram 2's `state.finish()` does. */
  class Session {
    const finishClearsData: bool
    var state: FormState
    var data: map<DataKey, string>
    var outbox: seq<Action>
    var generations: seq<GenerationRequest>

    ghost predicate Valid()
      reads this
    {
      && (state == WaitingForPrompt ==> Model in data && data[Model] in ModelChoices)
      && (finishClearsData && state != WaitingForPrompt ==> LastModel !in data && LastPrompt !in data)
    }

    constructor (finishClearsData: bool)
      ensures Valid()
      ensures this.finishClearsData == finishClearsData
      ensures state == Idle && data == map[] && outbox == [] && generations == []
    {
      this.finishClearsData := finishClearsData;
      state := Idle;
      data := map[];
      outbox := [];
      generations := [];
    }

    /** create: offer the model keyboard and move to choosing_model. */
    method Create()
      requires Valid() && state == Idle
      modifies this
      ensures Valid()
      ensures state == ChoosingModel && data == old(data) && generations == old(generations)
      ensures outbox == old(outbox) + [SendText(ModelMenu, ModelKeyboard)]
    {
      outbox := outbox + [SendText(ModelMenu, ModelKeyboard)];
      state := ChoosingModel;
    }

    /** choose_model: store the chosen model and wait for the prompt. */
    method ChooseModel(choice: string)
      requires Valid() && state == ChoosingModel && choice in ModelChoices
      modifies this
      ensures Valid()
      ensures state == WaitingForPrompt && data == old(data)[Model := choice] && generations == old(generations)
      ensures outbox == old(outbox) + [SendText(PromptRequest, []), AnswerCallback(None)]
    {
      data := data[Model := choice];
      state := WaitingForPrompt;
      outbox := outbox + [SendText(PromptRequest, []), AnswerCallback(None)];
    }

    /** state.finish(): no state, and no data either when finishing clears it. */
    method Finish()
      requires Valid()
      modifies this
      ensures Valid()
      ensures state == Idle && data == (if finishClearsData then map[] else old(data))
      ensures outbox == old(outbox) && generations == old(generations)
    {
      state := Idle;
      if finishClearsData {
        data := map[];
      }
    }

    /** gen: remember model and prompt, generate, answer, finish. An error escaping the delivery
        skips the finish, so the user keeps waiting for a prompt. */
    method Gen(prompt: string, w: World) returns (raised: bool)
      requires Valid() && state == WaitingForPrompt
      modifies this
      ensures Valid()
      ensures var model := old(data)[Model];
              var stored := old(data)[LastModel := model][LastPrompt := prompt];
              var answer := Answer(Generated(model, prompt, w), w.delivery);
              && raised == answer.0
              && generations == old(generations) + [GenerationRequest(model, prompt)]
              && outbox == old(outbox) + [SendText(GeneratingNotice, [])] + answer.1
              && state == (if raised then WaitingForPrompt else Idle)
              && data == (if !raised && finishClearsData then map[] else stored)
    {
      var model := data[Model];
      data := data[LastModel := model][LastPrompt := prompt];
      outbox := outbox + [SendText(GeneratingNotice, [])];
      var img := Generate(model, prompt, w);
      generations := generations + [GenerationRequest(model, prompt)];
      var actions;
      raised, actions := Respond(img, w.delivery);
      outbox := outbox + actions;
      if !raised {
        Finish();
      }
    }

    /** repeat_or_new. "repeat" regenerates from the stored model and prompt and never changes the
        state; when either is missing or empty it sends only the no-data text. "new" moves to
        choosing_model. */
    method RepeatOrNew(choice: string, w: World) returns (raised: bool)
      requires Valid() && state == Idle && choice in ActionChoices
      modifies this
      ensures Valid() && data == old(data)
      ensures choice == "new" ==>
                && state == ChoosingModel && !raised && generations == old(generations)
                && outbox == old(outbox) + [SendText(ModelMenu, ModelKeyboard), AnswerCallback(None)]
      ensures choice == "repeat" && !HasRepeatData(old(data)) ==>
                && state == Idle && !raised && generations == old(generations)
                && outbox == old(outbox) + [SendText(NoRepeatData, [])]
      ensures choice == "repeat" && HasRepeatData(old(data)) ==>
                var request := GenerationRequest(old(data)[LastModel], old(data)[LastPrompt]);
                var answer := Answer(Generated(request.model, request.prompt, w), w.delivery);
                && state == Idle && raised == answer.0
                && generations == old(generations) + [request]
                && outbox == old(outbox) + [AnswerCallback(Some(RegeneratingNotice))] + answer.1
      ensures finishClearsData ==> generations == old(generations)
    {
      raised := false;
      if choice == "repeat" {
        if !HasRepeatData(data) {
          outbox := outbox + [SendText(NoRepeatData, [])];
          return;
        }
        var model, prompt := data[LastModel], data[LastPrompt];
        outbox := outbox + [AnswerCallback(Some(RegeneratingNotice))];
        var img := Generate(model, prompt, w);
        generations := generations + [GenerationRequest(model, prompt)];
        var actions;
        raised, actions := Respond(img, w.delivery);
        outbox := outbox + actions;
      } else {
        state := ChoosingModel;
        outbox := outbox + [SendText(ModelMenu, ModelKeyboard), AnswerCallback(None)];
      }
    }

    /** One inbound event, routed as aiogram routes it; `raised` says whether an error escaped
        the handler. Each handled event has the effect of its handler. */
    method Dispatch(e: Event, w: World) returns (raised: bool)
      requires Valid()
      modifies this
      ensures Valid()
      ensures Route(old(state), e) == NoHandler ==>
                && state == old(state) && data == old(data) && outbox == old(outbox)
                && generations == old(generations) && !raised
      ensures Route(old(state), e) in {StartHandler, ShowMenuHandler, HelpHandler, ProfileHandler} ==>
                && state == old(state) && data == old(data) && generations == old(generations) && !raised
                && outbox == old(outbox) + [SendText(MenuReply(Route(old(state), e)), [])]
      ensures Route(old(state), e) == CreateHandler ==>
                && state == ChoosingModel && data == old(data) && generations == old(generations) && !raised
                && outbox == old(outbox) + [SendText(ModelMenu, ModelKeyboard)]
      ensures Route(old(state), e) == ChooseModelHandler ==>
                && state == WaitingForPrompt && data == old(data)[Model := e.data]
                && generations == old(generations) && !raised
                && outbox == old(outbox) + [SendText(PromptRequest, []), AnswerCallback(None)]
      ensures Route(old(state), e) == GenHandler ==>
                var model := old(data)[Model];
                var stored := old(data)[LastModel := model][LastPrompt := e.text];
                var answer := Answer(Generated(model, e.text, w), w.delivery);
                && raised == answer.0
                && generations == old(generations) + [GenerationRequest(model, e.text)]
                && outbox == old(outbox) + [SendText(GeneratingNotice, [])] + answer.1
                && state == (if raised then WaitingForPrompt else Idle)
                && data == (if !raised && finishClearsData then map[] else stored)
      ensures Route(old(state), e) == RepeatOrNewHandler && e.data == "new" ==>
                && state == ChoosingModel && data == old(data) && generations == old(generations) && !raised
                && outbox == old(outbox) + [SendText(ModelMenu, ModelKeyboard), AnswerCallback(None)]
      ensures Route(old(state), e) == RepeatOrNewHandler && e.data == "repeat" && !HasRepeatData(old(data)) ==>
                && state == Idle && data == old(data) && generations == old(generations) && !raised
                && outbox == old(outbox) + [SendText(NoRepeatData, [])]
      ensures Route(old(state), e) == RepeatOrNewHandler && e.data == "repeat" && HasRepeatData(old(data)) ==>
                var request := GenerationRequest(old(data)[LastModel], old(data)[LastPrompt]);
                var answer := Answer(Generated(request.model, request.prompt, w), w.delivery);
                && state == Idle && data == old(data) && raised == answer.0
                && generations == old(generations) + [request]
                && outbox == old(outbox) + [AnswerCallback(Some(RegeneratingNotice))] + answer.1
      ensures old(state) == Idle ==>
                (state == ChoosingModel <==> e == Message(CreateLabel) || e == Callback("new")) &&
                (state != ChoosingModel ==> state == Idle)
      ensures old(state) == ChoosingModel ==>
                (state == WaitingForPrompt <==> e.Callback? && e.data in ModelChoices) &&
                (state != WaitingForPrompt ==> state == ChoosingModel)
      ensures old(state) == WaitingForPrompt ==> state == (if e.Message? && !raised then Idle else WaitingForPrompt)
    {
      raised := false;
      match Route(state, e)
      case StartHandler =>
        outbox := outbox + [SendText(Greeting, [])];
      case ShowMenuHandler =>
        outbox := outbox + [SendText(MainMenu, [])];
      case HelpHandler =>
        outbox := outbox + [SendText(HelpText, [])];
      case ProfileHandler =>
        outbox := outbox + [SendText(ProfileText, [])];
      case CreateHandler =>
        Create();
      case ChooseModelHandler =>
        ChooseModel(e.data);
      case GenHandler =>
        raised := Gen(e.text, w);
      case RepeatOrNewHandler =>
        raised := RepeatOrNew(e.data, w);
      case NoHandler =>
    }
  }
}
