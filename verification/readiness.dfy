/**
 * The Loki readiness loop: up to ten probes of `/ready`. A transport error
 * before the last attempt sleeps three seconds and tries again; on the last
 * attempt it propagates. A non-200 answer moves on at once, without sleeping.
 * The first 200 answer ends the loop: it is ready when its stripped text is
 * "ready", and fails at once otherwise. Ten attempts without a decision end
 * in an explicit failure.
 */
module LokiReadiness {

  import Text

  const MaxRetries: nat := 10
  /** Seconds slept after a transport error. */
  const RetryDelay: nat := 3

  /** What one probe of `/ready` gave: a transport error, or an answer with a status code and text. */
  datatype Probe = TransportError | Answered(status: int, text: string)

  datatype Outcome =
    | Ready       // a 200 answer whose stripped text is "ready"
    | WrongBody   // a 200 answer with any other text: the assertion fails
    | Reraised    // a transport error on the last attempt propagates
    | GaveUp      // every attempt was a non-200 answer or a retried error

  /** Whether the loop stops at attempt `k`: a 200 answer, or a transport error on the last attempt. */
  predicate Decisive(probes: seq<Probe>, k: nat)
    requires k < |probes|
  {
    match probes[k]
    case TransportError => k == MaxRetries - 1
    case Answered(status, _) => status == 200
  }

  /** The text of a ready answer: "ready", once stripped of surrounding whitespace. */
  predicate ReadyText(text: string)
  {
    Text.Strip(text) == "ready"
  }

  /** A ready text is exactly "ready" with any whitespace around it. */
  lemma ReadyTextIsPaddedReady(text: string)
    ensures ReadyText(text) <==>
            exists i :: 0 <= i <= |text| - 5 && text[i..i + 5] == "ready"
                        && Text.AllSpace(text[..i]) && Text.AllSpace(text[i + 5..])
  {
    Text.StripIsExact(text, "ready");
  }

  /** The number of transport errors among `ps`. */
  function Errors(ps: seq<Probe>): nat
    decreases |ps|
  {
    if |ps| == 0 then 0
    else Errors(ps[..|ps| - 1]) + (if ps[|ps| - 1].TransportError? then 1 else 0)
  }

  lemma {:induction false} ErrorsAtMostLength(ps: seq<Probe>)
    ensures Errors(ps) <= |ps|
    decreases |ps|
  {
    if |ps| > 0 {
      ErrorsAtMostLength(ps[..|ps| - 1]);
    }
  }

  /**
   * Runs the loop over the scripted outcomes `probes[0..10]`, the outcome each
   * attempt would see. It reports how the loop ended, how many attempts it
   * made, and how many seconds it slept.
   */
  method WaitUntilReady(probes: seq<Probe>) returns (outcome: Outcome, attempts: nat, slept: nat)
    requires |probes| == MaxRetries
    ensures 1 <= attempts <= MaxRetries
    // Every attempt before the last one made was retried.
    ensures forall j :: 0 <= j < attempts - 1 ==> !Decisive(probes, j)
    ensures outcome == GaveUp <==> forall j :: 0 <= j < MaxRetries ==> !Decisive(probes, j)
    ensures outcome == GaveUp ==> attempts == MaxRetries
    ensures outcome != GaveUp ==> Decisive(probes, attempts - 1)
    ensures outcome == Ready <==>
              outcome != GaveUp && probes[attempts - 1].Answered? && ReadyText(probes[attempts - 1].text)
    ensures outcome == WrongBody <==>
              outcome != GaveUp && probes[attempts - 1].Answered? && !ReadyText(probes[attempts - 1].text)
    ensures outcome == Reraised <==> outcome != GaveUp && probes[attempts - 1].TransportError?
    // Only transport errors sleep, and never on the attempt that ends the loop.
    ensures slept == RetryDelay * Errors(probes[..attempts - 1])
    ensures slept <= (MaxRetries - 1) * RetryDelay
  {
    slept := 0;
    var attempt: nat := 0;
    while attempt < MaxRetries
      invariant attempt <= MaxRetries
      invariant forall j :: 0 <= j < attempt ==> !Decisive(probes, j)
      invariant slept == RetryDelay * Errors(probes[..attempt])
    {
      assert probes[..attempt + 1][..attempt] == probes[..attempt];
      match probes[attempt] {
        case TransportError =>
          if attempt < MaxRetries - 1 {
            slept := slept + RetryDelay;
          } else {
            ErrorsAtMostLength(probes[..attempt]);
            assert Decisive(probes, attempt);
            outcome, attempts := Reraised, attempt + 1;
            return;
          }
        case Answered(status, text) =>
          if status == 200 {
            ErrorsAtMostLength(probes[..attempt]);
            assert Decisive(probes, attempt);
            outcome := if ReadyText(text) then Ready else WrongBody;
            attempts := attempt + 1;
            return;
          }
      }
      attempt := attempt + 1;
    }
    // The last attempt was a non-200 answer, which did not sleep.
    assert !Decisive(probes, MaxRetries - 1);
    assert probes[..MaxRetries][..MaxRetries - 1] == probes[..MaxRetries - 1];
    ErrorsAtMostLength(probes[..MaxRetries - 1]);
    outcome, attempts := GaveUp, MaxRetries;
  }
}
