/**
 * The lesson-guide workspace: the state the page component holds, and the event handlers that
 * change it. The generation call is not part of the model; its settling is an event of its own
 * (`Succeed` or `Fail`) that follows `StartGenerate`, and each firing of the progress interval
 * is a `Tick`.
 */
module App {
  import opened Wrappers
  import Text
  import Form
  import Theme
  import History
  import Progress
  import Failure
  import Presenter

  /** The theme is one of the two values and is the one kept in local storage. */
  predicate ThemeStored(theme: string, stored: Option<string>) {
    Theme.IsTheme(theme) && stored == Some(theme)
  }

  /** The indicator shows nothing or the phrase at the current index. */
  predicate StepShown(loadingStep: string, stepIndex: nat) {
    stepIndex < |Progress.ThinkingSteps|
    && (loadingStep == "" || loadingStep == Progress.ThinkingSteps[stepIndex])
  }

  /** The ledger is bounded, holds only payloads that could be sent, and starts with the last one. */
  predicate LedgerKept(history: seq<Form.Payload>, lastPayload: Option<Form.Payload>) {
    && |history| <= History.Capacity
    && (forall p :: p in history ==> Form.IsPayload(p))
    && lastPayload == (if history == [] then None else Some(history[0]))
  }

  class Workspace {
    var theme: string
    /** The `theme` entry of local storage, written after every change of `theme`. */
    var storedTheme: Option<string>
    var draft: Form.Draft
    var loading: bool
    var loadingStep: string
    var resultado: string
    var error: string
    var lastPayload: Option<Form.Payload>
    var history: seq<Form.Payload>
    /** The payload of the generation call in flight, a local of `onGenerate`. */
    var pending: Option<Form.Payload>
    /** The index into the thinking steps, a local of `onGenerate` the interval advances. */
    var stepIndex: nat
    /** Whether the progress interval is registered. */
    var ticking: bool

    /**
     * The workspace's invariant: the theme is valid and stored; a call is in flight exactly
     * while loading, and only then does the interval run; while loading there is neither a
     * result nor an error, and there are never both; the ledger is bounded, holds only
     * payloads that could be sent, and its newest entry is the last successful payload.
     */
    ghost predicate Valid()
      reads this
    {
      && ThemeStored(theme, storedTheme)
      && StepShown(loadingStep, stepIndex)
      && ticking == loading
      && (loading <==> pending.Some?)
      && (loading ==> loadingStep != "" && resultado == "" && error == "")
      && (pending.Some? ==> Form.IsPayload(pending.value))
      && (resultado == "" || error == "")
      && LedgerKept(history, lastPayload)
    }

    /** The page as mounted: `saved` is what local storage holds, `prefersDark` the media query. */
    constructor (saved: Option<string>, prefersDark: bool)
      ensures Valid()
      ensures theme == Theme.InitialTheme(saved, prefersDark)
      ensures draft == Form.InitialDraft
      ensures !loading && loadingStep == "" && resultado == "" && error == ""
      ensures lastPayload == None && history == []
    {
      theme := Theme.InitialTheme(saved, prefersDark);
      storedTheme := Some(Theme.InitialTheme(saved, prefersDark));
      draft := Form.InitialDraft;
      loading := false;
      loadingStep := "";
      resultado := "";
      error := "";
      lastPayload := None;
      history := [];
      pending := None;
      stepIndex := 0;
      ticking := false;
    }

    /** The submit button's `disabled` attribute. */
    predicate SubmitDisabled()
      reads this
    {
      !Form.CanSubmit(draft) || loading
    }

    /** `updateField(key, value)`: one draft field replaced, nothing else touched. */
    method UpdateField(key: Form.Field, value: string)
      requires Valid()
      modifies this
      ensures Valid()
      ensures draft == Form.UpdateField(old(draft), key, value)
      ensures theme == old(theme) && storedTheme == old(storedTheme)
      ensures loading == old(loading) && loadingStep == old(loadingStep) && stepIndex == old(stepIndex)
      ensures ticking == old(ticking) && pending == old(pending)
      ensures resultado == old(resultado) && error == old(error)
      ensures lastPayload == old(lastPayload) && history == old(history)
    {
      draft := Form.UpdateField(draft, key, value);
    }

    /** `toggleTheme`, followed by the effect that stores the new theme. */
    method ToggleTheme()
      requires Valid()
      modifies this
      ensures Valid()
      ensures theme == Theme.Toggle(old(theme)) && theme != old(theme)
      ensures storedTheme == Some(theme)
      ensures draft == old(draft)
      ensures loading == old(loading) && loadingStep == old(loadingStep) && stepIndex == old(stepIndex)
      ensures ticking == old(ticking) && pending == old(pending)
      ensures resultado == old(resultado) && error == old(error)
      ensures lastPayload == old(lastPayload) && history == old(history)
    {
      theme := Theme.Toggle(theme);
      storedTheme := Some(theme);
    }

    /**
     * The synchronous part of `onGenerate`, reachable only through the enabled submit button:
     * enter loading, clear the previous error and result, show the first thinking step, start
     * the interval, and snapshot the trimmed payload for the call.
     */
    method StartGenerate()
      requires Valid() && !SubmitDisabled()
      modifies this
      ensures Valid()
      ensures loading && ticking && error == "" && resultado == ""
      ensures stepIndex == 0 && loadingStep == Progress.ThinkingSteps[0]
      ensures pending == Some(Form.BuildPayload(old(draft)))
      ensures draft == old(draft) && theme == old(theme) && storedTheme == old(storedTheme)
      ensures lastPayload == old(lastPayload) && history == old(history)
    {
      Form.PayloadOfSubmittable(draft);
      var payload := Form.BuildPayload(draft);
      loading := true;
      error := "";
      resultado := "";
      stepIndex := 0;
      loadingStep := Progress.ThinkingSteps[0];
      ticking := true;
      pending := Some(payload);
    }

    /** One firing of the interval: the next phrase while it runs, nothing once it is cleared. */
    method Tick()
      requires Valid()
      modifies this
      ensures Valid()
      ensures old(ticking) ==>
                stepIndex == Progress.NextStep(old(stepIndex)) && loadingStep == Progress.ThinkingSteps[stepIndex]
      ensures !old(ticking) ==> stepIndex == old(stepIndex) && loadingStep == old(loadingStep)
      ensures draft == old(draft) && theme == old(theme) && storedTheme == old(storedTheme)
      ensures loading == old(loading) && ticking == old(ticking) && pending == old(pending)
      ensures resultado == old(resultado) && error == old(error)
      ensures lastPayload == old(lastPayload) && history == old(history)
    {
      if ticking {
        stepIndex := Progress.NextStep(stepIndex);
        loadingStep := Progress.ThinkingSteps[stepIndex];
      }
    }

    /**
     * The call resolved with `text` (`data.resultado`): show it, remember the payload as the
     * last one and at the head of the ledger, then, as `finally` does, stop the interval and
     * leave loading.
     */
    method Succeed(text: string)
      requires Valid() && loading
      modifies this
      ensures Valid()
      ensures resultado == text && error == ""
      ensures lastPayload == old(pending)
      ensures history == History.Push(old(history), old(pending).value)
      ensures !loading && !ticking && pending == None
      ensures loadingStep == old(loadingStep) && stepIndex == old(stepIndex)
      ensures draft == old(draft) && theme == old(theme) && storedTheme == old(storedTheme)
    {
      var payload := pending.value;
      resultado := text;
      lastPayload := Some(payload);
      history := History.Push(history, payload);
      ticking := false;
      loading := false;
      pending := None;
    }

    /**
     * The call rejected with `thrown`: show the derived message, leave the result empty and
     * the ledger alone, then, as `finally` does, stop the interval and leave loading.
     */
    method Fail(thrown: Failure.Thrown)
      requires Valid() && loading
      modifies this
      ensures Valid()
      ensures error == Failure.ErrorMessage(thrown) && resultado == ""
      ensures lastPayload == old(lastPayload) && history == old(history)
      ensures !loading && !ticking && pending == None
      ensures loadingStep == old(loadingStep) && stepIndex == old(stepIndex)
      ensures draft == old(draft) && theme == old(theme) && storedTheme == old(storedTheme)
    {
      error := Failure.ErrorMessage(thrown);
      ticking := false;
      loading := false;
      pending := None;
    }

    /**
     * `downloadFicha`: nothing when there is no result; otherwise the markdown file holding the
     * result, named after the topic as it stands in the draft (untrimmed).
     */
    method Download() returns (file: Option<Presenter.FichaFile>)
      ensures file.None? <==> resultado == ""
      ensures file.Some? ==> file.value.name == Presenter.FileName(draft.tema)
                             && file.value.contents == resultado
                             && file.value.mimeType == Presenter.MimeType
    {
      if resultado == "" {
        file := None;
      } else {
        file := Some(Presenter.FichaFile(Presenter.FileName(draft.tema), resultado, Presenter.MimeType));
      }
    }
  }

  /**
   * A rejected call followed by a retry that succeeds: the first attempt shows the rejection's
   * message, the second start clears it, the retry's text is shown with no error beside it,
   * and the ledger then holds only the successful payload.
   */
  method RetryAfterTimeout(text: string)
    returns (firstError: string, retryError: string, retryResult: string, ledger: seq<Form.Payload>)
    ensures firstError == "Timeout"
    ensures retryError == "" && retryResult == text
    ensures ledger == [Form.BuildPayload(Form.InitialDraft)]
  {
    var w := new Workspace(None, true);
    Form.InitialDraftCanSubmit();
    w.StartGenerate();
    w.Tick();
    assert w.loadingStep == Progress.ThinkingSteps[1];
    w.Fail(Failure.ErrorValue("Timeout"));
    firstError := w.error;
    w.Tick();
    w.StartGenerate();
    retryError := w.error;
    w.Succeed(text);
    assert w.error == "";
    retryResult := w.resultado;
    ledger := w.history;
  }
}
