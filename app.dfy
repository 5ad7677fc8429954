/** App.tsx: the application state and the list operations behind its handlers. The lists
    are pure functions here; `AppState` holds the state the handlers replace step by step. */
module App {
  import opened Wrappers
  import opened Text
  import opened Types
  import opened ReportFields
  import DeepSeekService

  /** The profile the app starts with (App.tsx:13-20). */
  const InitialDog: DogProfile :=
    DogProfile("default-dog", "旺财", "金毛寻回犬", "旺财", Some("2020-01-01"), Some("25"), None)

  /** The index of the first profile with the given id. */
  function FirstDogIndex(dogs: seq<DogProfile>, id: string): (k: Option<nat>)
    ensures k.Some? ==> k.value < |dogs| && dogs[k.value].id == id
    ensures k.Some? ==> forall j :: 0 <= j < k.value ==> dogs[j].id != id
    ensures k.None? ==> forall j :: 0 <= j < |dogs| ==> dogs[j].id != id
  {
    if dogs == [] then None
    else if dogs[0].id == id then Some(0)
    else match FirstDogIndex(dogs[1..], id)
      case None => None
      case Some(k) => Some(k + 1)
  }

  /** `dogs.find(d => d.id === activeDogId) || dogs[0]`; `None` stands for the `undefined`
      an empty list gives. */
  function ActiveDog(dogs: seq<DogProfile>, activeId: string): (d: Option<DogProfile>)
    ensures d.None? <==> dogs == []
    ensures d.Some? ==> d.value in dogs
    ensures (exists k :: 0 <= k < |dogs| && dogs[k].id == activeId) ==>
      d.Some? && d.value.id == activeId
      && exists k :: 0 <= k < |dogs| && d.value == dogs[k] && forall j :: 0 <= j < k ==> dogs[j].id != activeId
    ensures d.Some? && d.value.id != activeId ==> d.value == dogs[0]
  {
    match FirstDogIndex(dogs, activeId)
    case Some(k) => Some(dogs[k])
    case None => if dogs == [] then None else Some(dogs[0])
  }

  /** A profile appended under an id no earlier profile has is the one `ActiveDog` finds. */
  lemma FreshDogFoundLast(dogs: seq<DogProfile>, dog: DogProfile)
    ensures (forall k :: 0 <= k < |dogs| ==> dogs[k].id != dog.id) ==> ActiveDog(dogs + [dog], dog.id) == Some(dog)
  {
    var ds := dogs + [dog];
    assert ds[|dogs|] == dog;
    assert forall k :: 0 <= k < |dogs| ==> ds[k] == dogs[k];
  }

  /** `reports.filter(r => r.dogId === activeDogId)`. */
  function ActiveReports(reports: seq<HealthReport>, dogId: string): (rs: seq<HealthReport>)
    ensures |rs| <= |reports|
    ensures forall r :: r in rs <==> r in reports && r.dogId == dogId
  {
    if reports == [] then []
    else if reports[0].dogId == dogId then [reports[0]] + ActiveReports(reports[1..], dogId)
    else ActiveReports(reports[1..], dogId)
  }

  /** Filtering distributes over concatenation, so the reports of one dog keep their store order. */
  lemma {:induction false} ActiveReportsAppend(a: seq<HealthReport>, b: seq<HealthReport>, dogId: string)
    ensures ActiveReports(a + b, dogId) == ActiveReports(a, dogId) + ActiveReports(b, dogId)
  {
    if a != [] {
      assert (a + b)[1..] == a[1..] + b;
      ActiveReportsAppend(a[1..], b, dogId);
    } else {
      assert a + b == b;
    }
  }

  /** A new report made for the active dog heads that dog's list, before its older reports. */
  lemma PrependedReportIsActive(r: HealthReport, reports: seq<HealthReport>)
    ensures ActiveReports([r] + reports, r.dogId) == [r] + ActiveReports(reports, r.dogId)
  {
    ActiveReportsAppend([r], reports, r.dogId);
  }

  /** Another dog's list is not touched by a new report. */
  lemma PrependedReportElsewhere(r: HealthReport, reports: seq<HealthReport>, dogId: string)
    requires r.dogId != dogId
    ensures ActiveReports([r] + reports, dogId) == ActiveReports(reports, dogId)
  {
    ActiveReportsAppend([r], reports, dogId);
  }

  /** `reports.filter(r => r.id !== id)`, the delete callback (App.tsx:297). */
  function WithoutReport(reports: seq<HealthReport>, id: string): (rs: seq<HealthReport>)
    ensures |rs| <= |reports|
    ensures forall r :: r in rs <==> r in reports && r.id != id
  {
    if reports == [] then []
    else if reports[0].id != id then [reports[0]] + WithoutReport(reports[1..], id)
    else WithoutReport(reports[1..], id)
  }

  /** Deleting distributes over concatenation: the survivors keep their order. */
  lemma {:induction false} WithoutReportAppend(a: seq<HealthReport>, b: seq<HealthReport>, id: string)
    ensures WithoutReport(a + b, id) == WithoutReport(a, id) + WithoutReport(b, id)
  {
    if a != [] {
      assert (a + b)[1..] == a[1..] + b;
      WithoutReportAppend(a[1..], b, id);
    } else {
      assert a + b == b;
    }
  }

  /** Deleting an id no report carries changes nothing. */
  lemma {:induction false} DeleteAbsentIsNoop(reports: seq<HealthReport>, id: string)
    requires forall k :: 0 <= k < |reports| ==> reports[k].id != id
    ensures WithoutReport(reports, id) == reports
  {
    if reports != [] {
      DeleteAbsentIsNoop(reports[1..], id);
      assert [reports[0]] + reports[1..] == reports;
    }
  }

  /** Adding a report with a fresh id and deleting it again restores the store. */
  lemma AddThenDelete(r: HealthReport, reports: seq<HealthReport>)
    requires forall k :: 0 <= k < |reports| ==> reports[k].id != r.id
    ensures WithoutReport([r] + reports, r.id) == reports
  {
    WithoutReportAppend([r], reports, r.id);
    DeleteAbsentIsNoop(reports, r.id);
  }

  /** `prev.map(d => d.id === updatedDog.id ? updatedDog : d)` (App.tsx:125-127). */
  function ReplaceDog(dogs: seq<DogProfile>, updated: DogProfile): (ds: seq<DogProfile>)
    ensures |ds| == |dogs|
    ensures forall k :: 0 <= k < |dogs| && dogs[k].id == updated.id ==> ds[k] == updated
    ensures forall k :: 0 <= k < |dogs| && dogs[k].id != updated.id ==> ds[k] == dogs[k]
  {
    if dogs == [] then []
    else [if dogs[0].id == updated.id then updated else dogs[0]] + ReplaceDog(dogs[1..], updated)
  }

  /** Replacing keeps every position's id, so the active dog is still found where it was:
      after editing the active dog, the active dog is the edited profile. */
  lemma ReplaceKeepsActive(dogs: seq<DogProfile>, updated: DogProfile, activeId: string)
    requires exists k :: 0 <= k < |dogs| && dogs[k].id == updated.id
    ensures forall k :: 0 <= k < |dogs| ==> ReplaceDog(dogs, updated)[k].id == dogs[k].id
    ensures updated.id == activeId ==> ActiveDog(ReplaceDog(dogs, updated), activeId) == Some(updated)
  {
    var ds := ReplaceDog(dogs, updated);
    if updated.id == activeId {
      var k := FirstDogIndex(ds, activeId);
      assert k.Some?;
    }
  }

  /** The failures after which App.tsx:86-96 drops the key: the two messages the clients raise
      for a missing or refused key, and the SDK's own "API Key must be set". */
  predicate RevokesKey(msg: string) {
    msg == ApiKeyMissing || msg == InvalidKeyError || Contains(msg, "API Key must be set")
  }

  /** A missing key, reported before any request, always sends the user back to key selection. */
  lemma MissingKeyRevokes(h: DeepSeekService.Host, image: string, dogId: string)
    requires !KeyUsable(h.apiKey)
    ensures DeepSeekService.AnalyzeStoolImage(h, image, dogId).Err?
    ensures RevokesKey(DeepSeekService.AnalyzeStoolImage(h, image, dogId).error)
  {
  }

  /** The state App.tsx holds in `useState` and changes in its handlers. `summary` is the
      report the daily summary card shows (`showDailySummary`). */
  class AppState {
    var reports: seq<HealthReport>
    var dogs: seq<DogProfile>
    var activeDogId: string
    var status: AnalysisStatus
    var hasApiKey: Option<bool>
    var proxyUrl: string
    var summary: Option<HealthReport>

    /** The dog list is never empty, so `activeDog` always names a profile. */
    predicate Valid()
      reads this
    {
      dogs != []
    }

    /** The first render (App.tsx:23-37): no reports, the initial dog, no key answer yet, and
        the saved proxy address or "" (`localStorage.getItem(...) || ''`). */
    constructor (savedProxy: Option<string>)
      ensures Valid()
      ensures reports == [] && dogs == [InitialDog] && activeDogId == InitialDog.id
      ensures status == Idle && hasApiKey == None && summary == None
      ensures proxyUrl == if savedProxy.Some? then savedProxy.value else ""
    {
      reports := [];
      dogs := [InitialDog];
      activeDogId := InitialDog.id;
      status := Idle;
      hasApiKey := None;
      proxyUrl := if savedProxy.Some? && savedProxy.value != "" then savedProxy.value else "";
      summary := None;
    }

    /** The startup restore (App.tsx:53-59): each saved value replaces the current one only
        when it is present (a non-empty stored string, already parsed here). */
    method Restore(savedReports: Option<seq<HealthReport>>, savedDogs: Option<seq<DogProfile>>,
                   savedActiveId: Option<string>)
      modifies this
      ensures reports == if savedReports.Some? then savedReports.value else old(reports)
      ensures dogs == if savedDogs.Some? then savedDogs.value else old(dogs)
      ensures activeDogId == if savedActiveId.Some? && savedActiveId.value != "" then savedActiveId.value
                             else old(activeDogId)
      ensures status == old(status) && hasApiKey == old(hasApiKey)
      ensures proxyUrl == old(proxyUrl) && summary == old(summary)
      ensures old(Valid()) && (savedDogs.None? || savedDogs.value != []) ==> Valid()
    {
      if savedReports.Some? {
        reports := savedReports.value;
      }
      if savedDogs.Some? {
        dogs := savedDogs.value;
      }
      if savedActiveId.Some? && savedActiveId.value != "" {
        activeDogId := savedActiveId.value;
      }
    }

    /** `activeDog` (App.tsx:42). */
    function CurrentDog(): (d: Option<DogProfile>)
      reads this
      ensures Valid() ==> d.Some? && d.value in dogs
    {
      ActiveDog(dogs, activeDogId)
    }

    /** `activeReports` (App.tsx:43). */
    function CurrentReports(): (rs: seq<HealthReport>)
      reads this
      ensures forall r :: r in rs <==> r in reports && r.dogId == activeDogId
    {
      ActiveReports(reports, activeDogId)
    }

    /** `processImageAnalysis` (App.tsx:75-100), with the DeepSeek client App.tsx imports. The
        status passes through LOADING; a new report is put in front of the store and shown;
        a failure leaves the store alone and drops the key for the messages `RevokesKey` names.
        The 3-second return to IDLE is `ResetStatus`. */
    method ProcessImageAnalysis(image: string, h: DeepSeekService.Host)
      returns (outcome: Result<HealthReport>)
      modifies this
      ensures outcome == DeepSeekService.AnalyzeStoolImage(h, image, old(activeDogId))
      ensures dogs == old(dogs) && activeDogId == old(activeDogId) && proxyUrl == old(proxyUrl)
      ensures outcome.Ok? ==> reports == [outcome.value] + old(reports) && status == Success
                              && summary == Some(outcome.value) && hasApiKey == old(hasApiKey)
      ensures outcome.Ok? ==> CurrentReports() == [outcome.value] + old(CurrentReports())
      ensures outcome.Err? ==> reports == old(reports) && status == Error && summary == old(summary)
      ensures outcome.Err? ==> hasApiKey == if RevokesKey(outcome.error) then Some(false) else old(hasApiKey)
    {
      status := Loading;
      outcome := DeepSeekService.AnalyzeStoolImage(h, image, activeDogId);
      match outcome
      case Ok(report) =>
        reports := [report] + reports;
        summary := Some(report);
        status := Success;
        PrependedReportIsActive(report, old(reports));
      case Err(msg) =>
        status := Error;
        if RevokesKey(msg) {
          hasApiKey := Some(false);
        }
    }

    /** The `setTimeout` callback that returns the status to IDLE. */
    method ResetStatus()
      modifies this`status
      ensures status == Idle
    {
      status := Idle;
    }

    /** `addDog` (App.tsx:119-123): the new profile goes last and becomes the active dog. */
    method AddDog(draft: DogDraft, id: string)
      modifies this`dogs, this`activeDogId
      ensures Valid()
      ensures dogs == old(dogs) + [WithId(draft, id)] && activeDogId == id
      ensures (forall k :: 0 <= k < |old(dogs)| ==> old(dogs)[k].id != id) ==> CurrentDog() == Some(WithId(draft, id))
    {
      var dog := WithId(draft, id);
      var before := dogs;
      dogs := dogs + [dog];
      activeDogId := dog.id;
      FreshDogFoundLast(before, dog);
    }

    /** `updateDog` (App.tsx:125-127). */
    method UpdateDog(updated: DogProfile)
      modifies this`dogs
      ensures old(Valid()) ==> Valid()
      ensures dogs == ReplaceDog(old(dogs), updated)
    {
      dogs := ReplaceDog(dogs, updated);
    }

    /** The calendar's delete callback (App.tsx:297). */
    method DeleteReport(id: string)
      modifies this`reports
      ensures reports == WithoutReport(old(reports), id)
    {
      reports := WithoutReport(reports, id);
    }

    /** The selector's `onSelect` (App.tsx:298). */
    method SelectDog(id: string)
      modifies this`activeDogId
      ensures activeDogId == id
    {
      activeDogId := id;
    }

    /** `checkApiKey` (App.tsx:46-50) with the host's answer, and `handleOpenKeySelector`
        (App.tsx:69-73) after the key dialog closes. */
    method KeyCheckAnswered(selected: bool)
      modifies this`hasApiKey
      ensures hasApiKey == Some(selected)
    {
      hasApiKey := Some(selected);
    }

    method KeySelected()
      modifies this`hasApiKey
      ensures hasApiKey == Some(true)
    {
      hasApiKey := Some(true);
    }

    /** The settings field's `onChange` (App.tsx:267). */
    method SetProxyUrl(url: string)
      modifies this`proxyUrl
      ensures proxyUrl == url
    {
      proxyUrl := url;
    }
  }
}
