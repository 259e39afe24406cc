/** safe_send_photo: up to three photo attempts, pausing after each network error, then
    a text fallback. Any other error propagates to the caller. The outcome of each
    attempt is an oracle. */
module Delivery {
  import opened Base
  import opened Traces
  import opened Chat

  const MaxAttempts: nat := 3
  const RetryPause: nat := 2

  /** The outcome of one `answer_photo` call. */
  datatype SendOutcome = Sent | NetworkError | OtherError

  /** How safe_send_photo ends: the photo went out, the fallback text went out, or an
      error other than a network error escaped. */
  datatype Delivery = Delivered | FellBack | Raised

  /** The first attempt, from `k` on, that is not a network error; MaxAttempts if none. */
  function FirstNonNetwork(attempts: nat -> SendOutcome, k: nat): (n: nat)
    requires k <= MaxAttempts
    decreases MaxAttempts - k
    ensures k <= n <= MaxAttempts
    ensures forall j :: k <= j < n ==> attempts(j) == NetworkError
    ensures n < MaxAttempts ==> attempts(n) != NetworkError
  {
    if k == MaxAttempts || attempts(k) != NetworkError then k else FirstNonNetwork(attempts, k + 1)
  }

  function DeliveryOf(attempts: nat -> SendOutcome): Delivery
  {
    var n := FirstNonNetwork(attempts, 0);
    if n == MaxAttempts then FellBack else if attempts(n) == Sent then Delivered else Raised
  }

  /** The actions of a delivery whose attempt `n` is the first that is not a network error. */
  function DeliveryTrace(img: Image, buttons: Keyboard, n: nat): seq<Action>
  {
    Repeat([SendPhoto(img, ReadyCaption, buttons), Pause(RetryPause)], n) +
    (if n < MaxAttempts then [SendPhoto(img, ReadyCaption, buttons)] else [SendText(SendError, [])])
  }

  method SafeSendPhoto(img: Image, buttons: Keyboard, attempts: nat -> SendOutcome)
    returns (outcome: Delivery, actions: seq<Action>)
    ensures outcome == DeliveryOf(attempts)
    ensures actions == DeliveryTrace(img, buttons, FirstNonNetwork(attempts, 0))
  {
    actions := [];
    var i := 0;
    while i < MaxAttempts
      invariant 0 <= i <= MaxAttempts
      invariant forall j :: 0 <= j < i ==> attempts(j) == NetworkError
      invariant actions == Repeat([SendPhoto(img, ReadyCaption, buttons), Pause(RetryPause)], i)
    {
      actions := actions + [SendPhoto(img, ReadyCaption, buttons)];
      var result := attempts(i);
      if result != NetworkError {
        assert FirstNonNetwork(attempts, 0) == i;
        outcome := if result == Sent then Delivered else Raised;
        return;
      }
      actions := actions + [Pause(RetryPause)];
      i := i + 1;
    }
    actions := actions + [SendText(SendError, [])];
    outcome := FellBack;
  }

  /** send_image_with_actions: the photo goes out with the repeat/new keyboard. */
  method SendImageWithActions(img: Image, attempts: nat -> SendOutcome)
    returns (outcome: Delivery, actions: seq<Action>)
    ensures outcome == DeliveryOf(attempts)
    ensures actions == DeliveryTrace(img, ActionsKeyboard, FirstNonNetwork(attempts, 0))
    ensures forall a :: a in actions && a.SendPhoto? ==> a.buttons == ActionsKeyboard
  {
    outcome, actions := SafeSendPhoto(img, ActionsKeyboard, attempts);
    DeliveryTraceShape(img, ActionsKeyboard, FirstNonNetwork(attempts, 0));
  }

  // ---------- properties ----------

  lemma {:induction false} DeliveryTraceShape(img: Image, buttons: Keyboard, n: nat)
    requires n <= MaxAttempts
    ensures var t := DeliveryTrace(img, buttons, n);
            && Count(t, SendPhoto(img, ReadyCaption, buttons)) == (if n < MaxAttempts then n + 1 else MaxAttempts)
            && Count(t, Pause(RetryPause)) == n
            && Count(t, SendText(SendError, [])) == (if n < MaxAttempts then 0 else 1)
            && (forall a :: a in t ==> a == SendPhoto(img, ReadyCaption, buttons) || a == Pause(RetryPause) || a == SendText(SendError, []))
  {
    var photo := SendPhoto(img, ReadyCaption, buttons);
    var fallback := SendText(SendError, []);
    var block := [photo, Pause(RetryPause)];
    var tail := if n < MaxAttempts then [photo] else [fallback];
    CountPair(photo, Pause(RetryPause));
    assert fallback !in block;
    CountRepeat(block, n, photo);
    CountRepeat(block, n, Pause(RetryPause));
    CountRepeat(block, n, fallback);
    CountConcat(Repeat(block, n), tail, photo);
    CountConcat(Repeat(block, n), tail, Pause(RetryPause));
    CountConcat(Repeat(block, n), tail, fallback);
    assert [photo][..0] == [] && [fallback][..0] == [];
    forall a | a in DeliveryTrace(img, buttons, n)
      ensures a == photo || a == Pause(RetryPause) || a == fallback
    {
      if a in Repeat(block, n) {
        RepeatMembers(block, n, a);
      }
    }
  }

  /** Every delivery starts with a photo attempt. */
  lemma DeliveryStartsWithPhoto(img: Image, buttons: Keyboard, n: nat)
    ensures |DeliveryTrace(img, buttons, n)| > 0
    ensures DeliveryTrace(img, buttons, n)[0] == SendPhoto(img, ReadyCaption, buttons)
  {
    if n > 0 {
      RepeatHead([SendPhoto(img, ReadyCaption, buttons), Pause(RetryPause)], n);
    }
  }

  /** Never more than three photo attempts. */
  lemma AtMostThreeAttempts(img: Image, buttons: Keyboard, attempts: nat -> SendOutcome)
    ensures Count(DeliveryTrace(img, buttons, FirstNonNetwork(attempts, 0)), SendPhoto(img, ReadyCaption, buttons)) <= MaxAttempts
  {
    DeliveryTraceShape(img, buttons, FirstNonNetwork(attempts, 0));
  }

  /** n < 3 network errors and then a success: delivered on attempt n + 1, no fallback text. */
  lemma SuccessAfterNetworkErrors(img: Image, buttons: Keyboard, attempts: nat -> SendOutcome, n: nat)
    requires n < MaxAttempts
    requires forall j :: 0 <= j < n ==> attempts(j) == NetworkError
    requires attempts(n) == Sent
    ensures DeliveryOf(attempts) == Delivered
    ensures var t := DeliveryTrace(img, buttons, FirstNonNetwork(attempts, 0));
            && Count(t, SendPhoto(img, ReadyCaption, buttons)) == n + 1
            && Count(t, SendText(SendError, [])) == 0
            && t[|t| - 1] == SendPhoto(img, ReadyCaption, buttons)
  {
    assert FirstNonNetwork(attempts, 0) == n;
    DeliveryTraceShape(img, buttons, n);
  }

  /** The fallback text goes out exactly once when all three attempts hit network errors
      (and is then the last action, so no photo attempt follows it), and never otherwise. */
  lemma FallbackIffThreeNetworkErrors(img: Image, buttons: Keyboard, attempts: nat -> SendOutcome)
    ensures var t := DeliveryTrace(img, buttons, FirstNonNetwork(attempts, 0));
            var exhausted := forall j :: 0 <= j < MaxAttempts ==> attempts(j) == NetworkError;
            && Count(t, SendText(SendError, [])) == (if exhausted then 1 else 0)
            && (exhausted <==> DeliveryOf(attempts) == FellBack)
            && (exhausted ==> t[|t| - 1] == SendText(SendError, []) &&
                              Count(t, SendPhoto(img, ReadyCaption, buttons)) == MaxAttempts)
  {
    var n := FirstNonNetwork(attempts, 0);
    DeliveryTraceShape(img, buttons, n);
  }

  /** An error other than a network error ends the delivery at once: it escapes, with no
      pause and no fallback after the failed attempt. */
  lemma OtherErrorPropagates(img: Image, buttons: Keyboard, attempts: nat -> SendOutcome, n: nat)
    requires n < MaxAttempts
    requires forall j :: 0 <= j < n ==> attempts(j) == NetworkError
    requires attempts(n) == OtherError
    ensures DeliveryOf(attempts) == Raised
    ensures var t := DeliveryTrace(img, buttons, FirstNonNetwork(attempts, 0));
            && Count(t, SendPhoto(img, ReadyCaption, buttons)) == n + 1
            && Count(t, SendText(SendError, [])) == 0
            && t[|t| - 1] == SendPhoto(img, ReadyCaption, buttons)
  {
    assert FirstNonNetwork(attempts, 0) == n;
    DeliveryTraceShape(img, buttons, n);
  }
}
