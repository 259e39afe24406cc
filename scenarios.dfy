/** Whole conversations with concrete backends, from "create image" to the answer. */
module Scenarios {
  import opened Base
  import opened Chat
  import opened Delivery
  import opened Bot
  import Kandinsky
  import StableDiffusion

  const FoxPrompt: string := "a red fox in snow"
  const FoxBytes: Bytes := [137, 80, 78, 71]

  /** A Kandinsky service that reports "DONE" on the third poll. */
  function DoneOnThirdPoll(): Kandinsky.Service
  {
    Kandinsky.Service(
      Kandinsky.Pipelines([Some("pipeline-1")]),
      Kandinsky.RunAccepted(Some("job-1")),
      k => if k < 2 then Kandinsky.Status(Some("PROCESSING"), []) else Kandinsky.Status(Some("DONE"), ["iVBORw=="]),
      s => Some(FoxBytes))
  }

  /** A Kandinsky service that never finishes. */
  function NeverDone(): Kandinsky.Service
  {
    Kandinsky.Service(
      Kandinsky.Pipelines([Some("pipeline-1")]),
      Kandinsky.RunAccepted(Some("job-1")),
      k => Kandinsky.Status(Some("PROCESSING"), []),
      s => Some(FoxBytes))
  }

  function FoxWorld(service: Kandinsky.Service): World
  {
    World(service, StableDiffusion.PostFailed, k => Sent)
  }

  lemma FoxImage()
    ensures Generated(KandinskyChoice, FoxPrompt, FoxWorld(DoneOnThirdPoll())) == Some(RawBytes(FoxBytes))
    ensures FirstNonNetwork(FoxWorld(DoneOnThirdPoll()).delivery, 0) == 0
  {
    var service := DoneOnThirdPoll();
    Kandinsky.FirstDoneWins(FoxPrompt, service, 2);
  }

  /** create, pick Kandinsky, send the prompt; the third poll is "DONE": the photo goes out
      once, with the repeat/new keyboard, and the user is idle again. */
  method FoxConversation() returns (sent: seq<Action>, final: FormState, requests: seq<GenerationRequest>)
    ensures sent == [SendText(GeneratingNotice, []), SendPhoto(RawBytes(FoxBytes), ReadyCaption, ActionsKeyboard)]
    ensures final == Idle
    ensures requests == [GenerationRequest(KandinskyChoice, FoxPrompt)]
  {
    var s := new Session(true);
    s.Create();
    s.ChooseModel(KandinskyChoice);
    var before := |s.outbox|;
    FoxImage();
    var _ := s.Gen(FoxPrompt, FoxWorld(DoneOnThirdPoll()));
    sent, final, requests := s.outbox[before..], s.state, s.generations;
  }

  /** The same conversation against a job that never finishes: one generation-error text,
      and the user is idle again. */
  method TimeoutConversation() returns (sent: seq<Action>, final: FormState)
    ensures sent == [SendText(GeneratingNotice, []), SendText(GenerationError, [])]
    ensures final == Idle
  {
    var s := new Session(true);
    s.Create();
    s.ChooseModel(KandinskyChoice);
    var before := |s.outbox|;
    Kandinsky.NeverDoneTimesOut(FoxPrompt, NeverDone());
    var _ := s.Gen(FoxPrompt, FoxWorld(NeverDone()));
    sent, final := s.outbox[before..], s.state;
  }

  /** As written (finishing wipes the data): "repeat" right after a successful generation finds
      no stored prompt, answers only with the no-data text and generates nothing. */
  method RepeatAfterGenerationAsWritten() returns (reply: seq<Action>, regenerated: bool)
    ensures reply == [SendText(NoRepeatData, [])]
    ensures !regenerated
  {
    var s := new Session(true);
    s.Create();
    s.ChooseModel(KandinskyChoice);
    FoxImage();
    var _ := s.Gen(FoxPrompt, FoxWorld(DoneOnThirdPoll()));
    assert Route(s.state, Callback("repeat")) == RepeatOrNewHandler;
    var before, count := |s.outbox|, |s.generations|;
    var _ := s.RepeatOrNew("repeat", FoxWorld(DoneOnThirdPoll()));
    reply, regenerated := s.outbox[before..], |s.generations| > count;
  }

  /** With the stored data kept across the finish: "repeat" regenerates from the stored model
      and prompt and delivers the new image with the repeat/new keyboard. */
  method RepeatAfterGenerationIntended() returns (reply: seq<Action>, request: GenerationRequest)
    ensures reply == [AnswerCallback(Some(RegeneratingNotice)), SendPhoto(RawBytes(FoxBytes), ReadyCaption, ActionsKeyboard)]
    ensures request == GenerationRequest(KandinskyChoice, FoxPrompt)
  {
    var s := new Session(false);
    s.Create();
    s.ChooseModel(KandinskyChoice);
    FoxImage();
    var _ := s.Gen(FoxPrompt, FoxWorld(DoneOnThirdPoll()));
    assert HasRepeatData(s.data);
    var before := |s.outbox|;
    var _ := s.RepeatOrNew("repeat", FoxWorld(DoneOnThirdPoll()));
    reply, request := s.outbox[before..], s.generations[|s.generations| - 1];
  }

  /** The whole conversation routed event by event: the create label, the Stable Diffusion button
      and a prompt; the photo goes out with the repeat/new keyboard and the user is idle. */
  method DispatchedConversation() returns (sent: seq<Action>, final: FormState)
    ensures sent == [SendText(ModelMenu, ModelKeyboard), SendText(PromptRequest, []), AnswerCallback(None),
                     SendText(GeneratingNotice, []), SendPhoto(Stream(FoxBytes), ReadyCaption, ActionsKeyboard)]
    ensures final == Idle
  {
    var w := World(NeverDone(), StableDiffusion.Response(200, FoxBytes), k => Sent);
    assert FirstNonNetwork(w.delivery, 0) == 0;
    var s := new Session(true);
    var _ := s.Dispatch(Message(CreateLabel), w);
    var _ := s.Dispatch(Callback(SdChoice), w);
    var _ := s.Dispatch(Message(FoxPrompt), w);
    sent, final := s.outbox, s.state;
  }
}
