/**
 * The root component (src/App.tsx): the canonical `BannerData | null`
 * record and the `isLoading` flag, the outcome of the initial fetch, the
 * patch-merge update, the optimistic hide on timer end, and the gate
 * that decides what is rendered.  Each HTTP request is an outcome the
 * caller supplies; notifications are recorded as emitted toasts and the
 * bodies of write requests as a log.
 */
module App {
  import opened BannerTypes
  import Dashboard
  import BannerComponent

  const LoadFailedToast := "Failed to load banner data. Please try again later."
  const UpdateSucceededToast := "Banner updated successfully!"
  const UpdateFailedToast := "Failed to update banner. Please try again."

  /** A notification raised with react-toastify. */
  datatype Toast = SuccessToast(message: string) | ErrorToast(message: string)

  /** The outcome of one HTTP request: the response body, or any failure. */
  datatype Response = Ok(data: BannerData) | Failed

  /** `Partial<BannerData>`: every key may be absent. */
  datatype Patch = Patch(
    id: Option<int>,
    description: Option<string>,
    link: Option<string>,
    timer: Option<Num>,
    isVisible: Option<bool>)

  const NoChange := Patch(None, None, None, None, None)

  /** The patch the timer-end handler sends: `{isVisible: false}`. */
  const HideBanner := Patch(None, None, None, None, Some(false))

  /** A whole draft passed as a patch: every key present, except `id` when the draft has none. */
  function FullPatch(d: BannerData): (r: Patch)
    ensures r.description.Some? && r.link.Some? && r.timer.Some? && r.isVisible.Some?
    ensures r.id == d.id
    ensures Merge(d, r) == d
  {
    Patch(d.id, Some(d.description), Some(d.link), Some(d.timer), Some(d.isVisible))
  }

  /** `{...current, ...patch}`: a key present in the patch wins, an absent key keeps the current value. */
  function Merge(current: BannerData, patch: Patch): (r: BannerData)
    ensures patch.id.Some? ==> r.id == patch.id
    ensures patch.id.None? ==> r.id == current.id
    ensures patch.description.Some? ==> r.description == patch.description.value
    ensures patch.description.None? ==> r.description == current.description
    ensures patch.link.Some? ==> r.link == patch.link.value
    ensures patch.link.None? ==> r.link == current.link
    ensures patch.timer.Some? ==> r.timer == patch.timer.value
    ensures patch.timer.None? ==> r.timer == current.timer
    ensures patch.isVisible.Some? ==> r.isVisible == patch.isVisible.value
    ensures patch.isVisible.None? ==> r.isVisible == current.isVisible
  {
    BannerData(
      if patch.id.Some? then patch.id else current.id,
      patch.description.GetOr(current.description),
      patch.link.GetOr(current.link),
      patch.timer.GetOr(current.timer),
      patch.isVisible.GetOr(current.isVisible))
  }

  /** Spreading `p` and then `q`: the keys of `q` win over those of `p`. */
  function Overlay(p: Patch, q: Patch): Patch {
    Patch(
      if q.id.Some? then q.id else p.id,
      if q.description.Some? then q.description else p.description,
      if q.link.Some? then q.link else p.link,
      if q.timer.Some? then q.timer else p.timer,
      if q.isVisible.Some? then q.isVisible else p.isVisible)
  }

  /** An empty patch posts the current record unchanged. */
  lemma MergeNoChange(b: BannerData)
    ensures Merge(b, NoChange) == b
  {
  }

  /** Merging the same patch twice is merging it once. */
  lemma MergeIdempotent(b: BannerData, p: Patch)
    ensures Merge(Merge(b, p), p) == Merge(b, p)
  {
  }

  /** Two merges in a row are one merge of the overlaid patches. */
  lemma MergeTwice(b: BannerData, p: Patch, q: Patch)
    ensures Merge(Merge(b, p), q) == Merge(b, Overlay(p, q))
  {
  }

  /**
   * A submitted draft replaces the current record: only the `id` survives
   * from the current record, and only when the draft has none.
   */
  lemma MergeFullDraft(b: BannerData, d: BannerData)
    ensures Merge(b, FullPatch(d)) == d.(id := if d.id.Some? then d.id else b.id)
    ensures d.id.Some? ==> Merge(b, FullPatch(d)) == d
  {
  }

  /**
   * `{isVisible: false}` merged over a record is the record with only its
   * visibility turned off, whether or not the optimistic flip has already
   * been applied to it.
   */
  lemma HideBannerFlips(b: BannerData)
    ensures Merge(b, HideBanner) == b.(isVisible := false)
    ensures Merge(b.(isVisible := false), HideBanner) == b.(isVisible := false)
  {
  }

  /** The props the root passes to `Banner`. */
  datatype BannerProps = BannerProps(description: string, link: string, timer: Num)

  /** What the root renders: the spinner, or the page with the banner (when shown) and the form's `bannerData` prop. */
  datatype Screen = Spinner | Page(banner: Option<BannerProps>, formData: Option<BannerData>)

  /**
   * While loading only the spinner; otherwise the banner is rendered
   * exactly when there is a record and it is visible, and the form always
   * receives the record (or `null`).
   */
  function Render(isLoading: bool, bannerData: Option<BannerData>): (v: Screen)
    ensures v.Spinner? <==> isLoading
    ensures v.Page? ==> (v.banner.Some? <==> bannerData.Some? && bannerData.value.isVisible)
    ensures v.Page? && v.banner.Some? ==>
              v.banner.value == BannerProps(bannerData.value.description, bannerData.value.link, bannerData.value.timer)
    ensures v.Page? ==> v.formData == bannerData
  {
    if isLoading then Spinner
    else
      var banner := match bannerData
        case Some(b) => if b.isVisible then Some(BannerProps(b.description, b.link, b.timer)) else None
        case None => None;
      Page(banner, bannerData)
  }

  /** The root component's state. */
  class Root {
    var bannerData: Option<BannerData>
    var isLoading: bool
    var toasts: seq<Toast>          // notifications raised, oldest first
    var posts: seq<BannerData>      // bodies of the write requests issued, oldest first

    constructor ()
      ensures bannerData == None && isLoading && toasts == [] && posts == []
    {
      bannerData := None;
      isLoading := true;
      toasts := [];
      posts := [];
    }

    function View(): Screen
      reads this
    {
      Render(isLoading, bannerData)
    }

    /** The mount effect's read request settles with `response`. */
    method FetchSettled(response: Response)
      modifies this
      ensures !isLoading
      ensures response.Ok? ==> bannerData == Some(response.data) && toasts == old(toasts)
      ensures response.Failed? ==> bannerData == old(bannerData) && toasts == old(toasts) + [ErrorToast(LoadFailedToast)]
      ensures posts == old(posts)
    {
      if response.Ok? {
        bannerData := Some(response.data);
      } else {
        toasts := toasts + [ErrorToast(LoadFailedToast)];
      }
      isLoading := false;
    }

    /**
     * `handleBannerUpdate(patch)` up to the awaited request.  With no
     * record nothing is sent; otherwise `request` is the merged body,
     * which is posted.  Nothing else changes yet.
     */
    method BeginUpdate(patch: Patch) returns (request: Option<BannerData>)
      modifies this`posts
      ensures request.Some? <==> bannerData.Some?
      ensures request.Some? ==> request.value == Merge(bannerData.value, patch)
      ensures posts == old(posts) + if request.Some? then [request.value] else []
    {
      if bannerData.Some? {
        request := Some(Merge(bannerData.value, patch));
        posts := posts + [request.value];
      } else {
        request := None;
      }
    }

    /**
     * `handleBannerUpdate` after its request settles: the state becomes
     * the response with a success toast, or stays with an error toast.
     * The returned promise always resolves: no error escapes.
     */
    method FinishUpdate(response: Response) returns (settled: Settled)
      modifies this`bannerData, this`toasts
      ensures settled == Resolved
      ensures response.Ok? ==>
                bannerData == Some(response.data) && toasts == old(toasts) + [SuccessToast(UpdateSucceededToast)]
      ensures response.Failed? ==>
                bannerData == old(bannerData) && toasts == old(toasts) + [ErrorToast(UpdateFailedToast)]
    {
      settled := Resolved;
      if response.Ok? {
        bannerData := Some(response.data);
        toasts := toasts + [SuccessToast(UpdateSucceededToast)];
      } else {
        toasts := toasts + [ErrorToast(UpdateFailedToast)];
      }
    }

    /**
     * The whole of `handleBannerUpdate(patch)` when nothing else happens
     * while the request is in flight.
     */
    method Update(patch: Patch, response: Response) returns (settled: Settled)
      modifies this
      ensures settled == Resolved
      ensures isLoading == old(isLoading)
      ensures old(bannerData).None? ==>
                bannerData == None && toasts == old(toasts) && posts == old(posts)
      ensures old(bannerData).Some? ==>
                posts == old(posts) + [Merge(old(bannerData).value, patch)]
      ensures old(bannerData).Some? && response.Ok? ==>
                bannerData == Some(response.data) && toasts == old(toasts) + [SuccessToast(UpdateSucceededToast)]
      ensures old(bannerData).Some? && response.Failed? ==>
                bannerData == old(bannerData) && toasts == old(toasts) + [ErrorToast(UpdateFailedToast)]
    {
      settled := Resolved;
      var request := BeginUpdate(patch);
      if request.Some? {
        settled := FinishUpdate(response);
      }
    }

    /**
     * `handleBannerTimerEnd` up to the awaited request: the record is
     * hidden locally at once, so the banner is no longer rendered, and
     * `{isVisible: false}` is posted when there was a record.  The body
     * posted is the record as it was with visibility off.
     */
    method TimerEndFlip() returns (request: Option<BannerData>)
      modifies this`bannerData, this`posts
      ensures old(bannerData).None? ==> bannerData == None && request == None && posts == old(posts)
      ensures old(bannerData).Some? ==>
                bannerData == Some(old(bannerData).value.(isVisible := false))
                && request == Some(Merge(old(bannerData).value, HideBanner))
                && posts == old(posts) + [request.value]
      ensures request.Some? ==> request.value == old(bannerData).value.(isVisible := false)
      ensures !isLoading ==> View().banner.None?
    {
      var snapshot := bannerData;
      bannerData := if snapshot.Some? then Some(snapshot.value.(isVisible := false)) else None;
      if snapshot.Some? {
        HideBannerFlips(snapshot.value);
        request := Some(Merge(snapshot.value, HideBanner));
        posts := posts + [request.value];
      } else {
        request := None;
      }
    }

    /**
     * The whole of `handleBannerTimerEnd` when nothing else happens
     * while the request is in flight.  A failed request leaves the local
     * flip in place: there is no rollback.
     */
    method TimerEnd(response: Response)
      modifies this
      ensures isLoading == old(isLoading)
      ensures old(bannerData).None? ==>
                bannerData == None && toasts == old(toasts) && posts == old(posts)
      ensures old(bannerData).Some? ==>
                posts == old(posts) + [old(bannerData).value.(isVisible := false)]
      ensures old(bannerData).Some? && response.Ok? ==>
                bannerData == Some(response.data) && toasts == old(toasts) + [SuccessToast(UpdateSucceededToast)]
      ensures old(bannerData).Some? && response.Failed? ==>
                bannerData == Some(old(bannerData).value.(isVisible := false))
                && toasts == old(toasts) + [ErrorToast(UpdateFailedToast)]
    {
      var request := TimerEndFlip();
      if request.Some? {
        var _ := FinishUpdate(response);
      }
    }
  }

  /** The record of the scenario: a five-second sale banner. */
  const Sale := BannerData(None, "Sale today", "https://x.com", Int(5), true)

  /**
   * The fetch returns the sale banner; the banner is rendered with a
   * five-second timer and counts down; the fifth second calls the
   * timer-end handler exactly once, which hides the banner while the
   * record with visibility off is posted.  Once the request settles the
   * banner is shown again only if the server answers with a visible
   * record.
   */
  method SaleBannerExpires(response: Response)
    returns (timerEndCalls: nat, posted: seq<BannerData>, shownWhilePending: bool, shownAfter: bool)
    ensures timerEndCalls == 1
    ensures posted == [Sale.(isVisible := false)]
    ensures !shownWhilePending
    ensures shownAfter <==> response.Ok? && response.data.isVisible
  {
    var root := new Root();
    root.FetchSettled(Ok(Sale));
    var props := root.View().banner.value;
    var banner := new BannerComponent.Banner(props.timer.value);
    // the interval fires once a second; the first four firings only count down
    var ended := banner.Tick();
    ended := banner.Tick();
    ended := banner.Tick();
    ended := banner.Tick();
    assert !ended && banner.timeLeft == 1;
    ended := banner.Tick();
    var request: Option<BannerData> := None;
    if ended {
      request := root.TimerEndFlip();
    }
    shownWhilePending := root.View().banner.Some?;
    if request.Some? {
      var _ := root.FinishUpdate(response);
    }
    timerEndCalls := banner.timerEndCalls;
    posted := root.posts;
    shownAfter := root.View().banner.Some?;
  }

  /**
   * The close button on the sale banner: the handler hides the record at
   * once, so the root stops rendering the banner and its cleanup clears
   * the interval that the close left running.  Later seconds call
   * nothing, so `onTimerEnd` runs exactly once.
   */
  method SaleBannerClosed(response: Response)
    returns (timerEndCalls: nat, posted: seq<BannerData>, shownWhilePending: bool, liveAfter: nat)
    ensures timerEndCalls == 1
    ensures posted == [Sale.(isVisible := false)]
    ensures !shownWhilePending
    ensures liveAfter == 0
  {
    var root := new Root();
    root.FetchSettled(Ok(Sale));
    var props := root.View().banner.value;
    var banner := new BannerComponent.Banner(props.timer.value);
    var ended := banner.Tick();
    banner.Close();
    var request := root.TimerEndFlip();
    shownWhilePending := root.View().banner.Some?;
    if !shownWhilePending {
      banner.Unmount();
    }
    // seconds keep passing while the request is in flight
    ended := banner.Tick();
    ended := banner.Tick();
    if request.Some? {
      var _ := root.FinishUpdate(response);
    }
    timerEndCalls := banner.timerEndCalls;
    posted := root.posts;
    liveAfter := banner.liveIntervals;
  }

  /** The fetch fails: the spinner goes, no banner is rendered, one error toast is raised. */
  method FetchFails() returns (view: Screen, toasts: seq<Toast>)
    ensures view == Page(None, None)
    ensures toasts == [ErrorToast(LoadFailedToast)]
  {
    var root := new Root();
    root.FetchSettled(Failed);
    view := root.View();
    toasts := root.toasts;
  }

  /**
   * A submission from the form through `handleBannerUpdate`.  The form's
   * catch branch can never run, because the root's update never
   * rejects; on success the seeding effect then replaces the draft with
   * the server's record.
   */
  method SubmitThroughRoot(form: Dashboard.AdminForm, root: Root, response: Response)
    requires form.Valid() && !form.isSubmitting
    modifies form, root
    ensures form.Valid() && !form.isSubmitting
    ensures form.error != Some(Dashboard.UpdateFailed)
    ensures Dashboard.Check(old(form.draft)).Some? ==>
              form.error == Dashboard.Check(old(form.draft)) && root.posts == old(root.posts)
              && form.draft == old(form.draft) && root.bannerData == old(root.bannerData)
    ensures Dashboard.Check(old(form.draft)).None? && old(root.bannerData).Some? ==>
              root.posts == old(root.posts) + [Merge(old(root.bannerData).value, FullPatch(old(form.draft)))]
    ensures Dashboard.Check(old(form.draft)).None? && old(root.bannerData).Some? && response.Ok? ==>
              form.draft == response.data && root.bannerData == Some(response.data)
  {
    var before := root.bannerData;
    var request := form.BeginSubmit();
    if request.Some? {
      var settled := root.Update(FullPatch(request.value), response);
      form.FinishSubmit(settled);
      if before.Some? && response.Ok? {
        form.SeedFrom(root.bannerData);
      }
    }
  }

  /**
   * The timer ends while the form holds unsaved edits: the optimistic
   * flip changes `bannerData`, so the seeding effect replaces the whole
   * draft with the hidden record while the request is in flight
   * (`pending`), and again with the server's record when it succeeds.
   */
  method TimerEndReseedsForm(form: Dashboard.AdminForm, root: Root, response: Response)
    returns (pending: BannerData)
    modifies form, root
    ensures old(root.bannerData).Some? ==> pending == old(root.bannerData).value.(isVisible := false)
    ensures old(root.bannerData).Some? ==> Some(form.draft) == root.bannerData
    ensures old(root.bannerData).Some? && response.Ok? ==> form.draft == response.data
    ensures old(root.bannerData).Some? && response.Failed? ==>
              form.draft == old(root.bannerData).value.(isVisible := false)
    ensures old(root.bannerData).None? ==> pending == old(form.draft) && form.draft == old(form.draft)
  {
    var request := root.TimerEndFlip();
    form.SeedFrom(root.bannerData);
    pending := form.draft;
    if request.Some? {
      var _ := root.FinishUpdate(response);
      if response.Ok? {
        form.SeedFrom(root.bannerData);
      }
    }
  }
}
