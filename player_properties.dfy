/**
 * Properties of the VideoPlayerView state machine over whole runs: any interleaving of
 * public calls and environment continuations keeps the invariant, the playing intent
 * is the last play/pause call's, and a view without a delegate never notifies.
 * Then the edge cases and scenarios the view's code settles, including the screen
 * controller of Common/VideoViewController.swift acting as the delegate.
 */
module PlayerProperties {
  import opened PlayerState

  /** One step a view can take: a public call, or a continuation the media
      framework runs (a track load, a seek, an observer, an item notification). */
  datatype Call =
    | PlayCall
    | PauseCall
    | ResetCall
    | SetVideoUrlCall(url: Option<Url>, hasCompletion: bool)
    | RemoveFromSuperviewCall
    | SetDelegateCall(delegate: Option<Delegate>)
    | TracksLoaded(index: nat, loaded: bool, error: Option<MediaError>)
    | SeekCompleted(finished: bool)
    | StatusChanged(status: Status, oldStatus: Option<Status>, itemError: Option<MediaError>)
    | SizeChanged(size: Size)
    | PlayedToEnd(item: Option<Ref>)
    | FailedToEnd(item: Option<Ref>, failure: Option<MediaError>)

  /** One step; a load or seek continuation that was never scheduled does nothing. */
  function Step(s: State, c: Call): (r: State)
    ensures s.events <= r.events
    ensures Inv(s) ==> Inv(r)
  {
    match c
    case PlayCall => Play(s)
    case PauseCall => Pause(s)
    case ResetCall => Reset(s)
    case SetVideoUrlCall(url, hasCompletion) => SetVideoUrl(s, url, hasCompletion)
    case RemoveFromSuperviewCall => RemoveFromSuperview(s)
    case SetDelegateCall(d) => SetDelegate(s, d)
    case TracksLoaded(i, loaded, error) =>
      if i < |s.pending| then OnTracksLoaded(s, i, loaded, error) else s
    case SeekCompleted(finished) =>
      if s.pendingSeeks > 0 then OnSeekCompleted(s, finished) else s
    case StatusChanged(status, oldStatus, error) => OnStatusChanged(s, status, oldStatus, error)
    case SizeChanged(size) => OnSizeChanged(s, size)
    case PlayedToEnd(item) => OnPlayedToEnd(s, item)
    case FailedToEnd(item, error) => OnFailedToEnd(s, item, error)
  }

  /** A run of steps from `s`: the event log only grows, and the invariant holds
      after every interleaving of calls and continuations. */
  function Run(s: State, calls: seq<Call>): (r: State)
    ensures s.events <= r.events
    ensures Inv(s) ==> Inv(r)
    decreases |calls|
  {
    if calls == [] then s else Run(Step(s, calls[0]), calls[1..])
  }

  // ------------------------------------------------------------ play / pause intent

  predicate IntentCallsOnly(calls: seq<Call>) {
    forall i :: 0 <= i < |calls| ==> calls[i].PlayCall? || calls[i].PauseCall?
  }

  /** After any non-empty sequence of play() and pause() calls, `isPlaying` is the last
      call's intent, whatever the item's readiness; after a final pause() the transport
      is stopped as well. */
  lemma {:induction false} LastIntentWins(s: State, calls: seq<Call>)
    requires calls != [] && IntentCallsOnly(calls)
    ensures Run(s, calls).isPlaying <==> calls[|calls| - 1].PlayCall?
    ensures calls[|calls| - 1].PauseCall? ==> !Run(s, calls).player.running
    decreases |calls|
  {
    var t := Step(s, calls[0]);
    if |calls| == 1 {
      assert Run(s, calls) == Run(t, []) == t;
    } else {
      assert IntentCallsOnly(calls[1..]) by {
        forall i | 0 <= i < |calls[1..]| ensures calls[1..][i].PlayCall? || calls[1..][i].PauseCall? {
          assert calls[1..][i] == calls[i + 1];
        }
      }
      LastIntentWins(t, calls[1..]);
      assert calls[1..][|calls[1..]| - 1] == calls[|calls| - 1];
    }
  }

  /** pause() is idempotent. */
  lemma PauseIdempotent(s: State)
    ensures Pause(Pause(s)) == Pause(s)
  {
  }

  // ------------------------------------------------------------ no delegate, no notifications

  predicate IsNotification(e: Event) {
    e.Ready? || e.FinishedPlaying? || e.EncounteredError?
  }

  /** `after` extends `before` with no delegate notification. */
  predicate QuietSince(before: seq<Event>, after: seq<Event>) {
    before <= after && forall k :: |before| <= k < |after| ==> !IsNotification(after[k])
  }

  predicate KeepsDelegate(calls: seq<Call>) {
    forall i :: 0 <= i < |calls| ==> !calls[i].SetDelegateCall?
  }

  lemma StepWithoutDelegate(s: State, c: Call)
    requires s.delegate.None? && !c.SetDelegateCall?
    ensures Step(s, c).delegate.None?
    ensures QuietSince(s.events, Step(s, c).events)
  {
    var r := Step(s, c);
    match c
    case TracksLoaded(i, loaded, error) =>
      if i < |s.pending| {
        assert r.events == s.events + CompletionFor(s.pending[i].hasCompletion, loaded, error);
      }
    case StatusChanged(status, oldStatus, error) =>
      assert r.events == s.events;
    case _ =>
  }

  /** With no delegate the view raises no notification however the run goes: only
      completions and layout invalidations reach the outside, and nothing fails. */
  lemma {:induction false} NoDelegateNoNotifications(s: State, calls: seq<Call>)
    requires s.delegate.None? && KeepsDelegate(calls)
    ensures Run(s, calls).delegate.None?
    ensures QuietSince(s.events, Run(s, calls).events)
    decreases |calls|
  {
    if calls != [] {
      var t := Step(s, calls[0]);
      var r := Run(s, calls);
      StepWithoutDelegate(s, calls[0]);
      assert KeepsDelegate(calls[1..]) by {
        forall i | 0 <= i < |calls[1..]| ensures !calls[1..][i].SetDelegateCall? {
          assert calls[1..][i] == calls[i + 1];
        }
      }
      NoDelegateNoNotifications(t, calls[1..]);
      assert r == Run(t, calls[1..]);
      forall k | |s.events| <= k < |r.events| ensures !IsNotification(r.events[k]) {
        if k < |t.events| {
          assert r.events[k] == t.events[k];
        }
      }
    }
  }

  // ------------------------------------------------------------ setVideoUrl edge cases

  /** Setting the same URL a second time starts no second load and answers the
      completion with whether an asset is installed, without an error. */
  lemma SecondSetVideoUrlDoesNotReload(s: State, url: Url, first: bool, second: bool)
    ensures var t := SetVideoUrl(s, Some(url), first);
            var r := SetVideoUrl(t, Some(url), second);
            r.pending == t.pending && r.asset == t.asset && r.nextRef == t.nextRef
            && r.events == t.events + CompletionFor(second, t.asset.Some?, None)
  {
  }

  /** While a new URL is still loading, repeating it reports success if the previous
      URL's asset is still installed: the outcome speaks of that older asset. */
  lemma RepeatWhileLoadingReportsOldAsset(s: State, url: Url)
    requires Inv(s) && s.asset.Some? && s.videoUrl != Some(url)
    ensures var t := SetVideoUrl(s, Some(url), false);
            var r := SetVideoUrl(t, Some(url), true);
            r.videoUrl == Some(url) && r.asset == s.asset && |r.pending| == |s.pending| + 1
            && r.events == s.events + [Completion(true, None)]
  {
  }

  /** setVideoUrl(nil) answers (false, nil) on a view that never had a URL, and
      (true, nil) after a URL was set. */
  lemma NilUrlOutcome(d: Option<Delegate>, url: Url)
    ensures SetVideoUrl(Initial(d), None, true).events == [Completion(false, None)]
    ensures var t := SetVideoUrl(Initial(d), Some(url), false);
            SetVideoUrl(t, None, true).events == [Completion(true, None)]
  {
  }

  /** After removeFromSuperview the URL stays while the asset is gone, so setting the
      same URL again reloads nothing and answers (false, nil). */
  lemma SameUrlAfterRemoval(s: State, url: Url)
    requires s.videoUrl == Some(url)
    ensures var t := RemoveFromSuperview(s);
            var r := SetVideoUrl(t, Some(url), true);
            r.asset.None? && r.pending == s.pending
            && r.events == s.events + [Completion(false, None)]
  {
  }

  /** Loads are never cancelled: when two loads finish out of order, the older URL's
      asset is installed while `videoUrl` names the newer one. */
  lemma StaleLoadCanWin(d: Option<Delegate>, a: Url, b: Url)
    requires a != b
    ensures var s1 := SetVideoUrl(Initial(d), Some(a), false);
            var s2 := SetVideoUrl(s1, Some(b), false);
            var s3 := OnTracksLoaded(s2, 1, true, None);
            var s4 := OnTracksLoaded(s3, 0, true, None);
            s4.videoUrl == Some(b) && s4.asset.Some? && s4.asset.value.url == a
  {
    var s1 := SetVideoUrl(Initial(d), Some(a), false);
    var s2 := SetVideoUrl(s1, Some(b), false);
    assert s2.pending == [Load(Asset(0, a), false), Load(Asset(1, b), false)];
    var s3 := OnTracksLoaded(s2, 1, true, None);
    assert s3.pending == [Load(Asset(0, a), false)];
  }

  // ------------------------------------------------------------ readiness, reset, stale items

  /** reset() followed by its seek completion raises exactly one ready notification
      (if the delegate implements it), whatever the seek reports, and stays paused. */
  lemma ResetRaisesReadyOnce(s: State, finished: bool)
    ensures var r := OnSeekCompleted(Reset(s), finished);
            r.events == s.events + Delivered(s.delegate, Ready)
            && !r.isPlaying && !r.player.running && r.pendingSeeks == s.pendingSeeks
    ensures OnSeekCompleted(Reset(s), finished) == OnSeekCompleted(Reset(s), !finished)
  {
  }

  /** A ready transition from any other status only notifies: play() called while the
      item was still loading records the intent but the transport never starts, and a
      second play() is then a no-op. */
  lemma PlayBeforeReadyNeverStarts(s: State, oldStatus: Option<Status>)
    requires Inv(s) && s.playerItem.Some? && s.player.status == Unknown
    requires !s.isPlaying && !s.player.running
    requires oldStatus != Some(ReadyToPlay)
    ensures var t := OnStatusChanged(Play(s), ReadyToPlay, oldStatus, None);
            t.isPlaying && !t.player.running && Play(t) == t
  {
  }

  /** The status observation is registered without asking for old values, so every
      change arrives with no old status. Then a change into ready raises exactly one
      ready notification and never touches the transport, even when the item was
      already ready and `isPlaying` is set. */
  lemma StatusChangeWithoutOldValue(s: State, error: Option<MediaError>)
    ensures var r := OnStatusChanged(s, ReadyToPlay, None, error);
            r.events == s.events + (if s.subscribed.Some? then Delivered(s.delegate, Ready) else [])
            && r.player.running == s.player.running
  {
  }

  /** Once an item is replaced, its end-of-item notifications are stale: the fresh item
      has a new identity, so they change nothing. */
  lemma StaleItemIgnored(s: State, a: Option<Asset>, error: Option<MediaError>)
    requires Inv(s) && s.playerItem.Some?
    ensures var stale := s.playerItem.value.id;
            var t := AssignAsset(s, a);
            OnPlayedToEnd(t, Some(stale)) == t && OnFailedToEnd(t, Some(stale), error) == t
  {
  }

  /** Once the asset is cleared no observer is attached, so status and size changes
      that still arrive change nothing. */
  lemma DetachedObserversAreSilent(s: State, status: Status, oldStatus: Option<Status>,
                                   error: Option<MediaError>, size: Size)
    ensures var t := RemoveFromSuperview(s);
            OnStatusChanged(t, status, oldStatus, error) == t && OnSizeChanged(t, size) == t
  {
  }

  // ------------------------------------------------------------ the screen controller as delegate

  /** VideoViewController implements the ready and finished methods, not the error one. */
  const ControllerDelegate := Delegate(handlesError := false, handlesFinished := true, handlesReady := true)

  /** A successful load: the completion gets (true, nil), the item is installed, and its
      first ready transition raises one ready notification. */
  lemma LoadSucceeds(s: State, url: Url, d: Delegate)
    requires Inv(s) && s.videoUrl != Some(url) && s.delegate == Some(d) && d.handlesReady
    ensures var t := SetVideoUrl(s, Some(url), true);
            var u := OnTracksLoaded(t, |s.pending|, true, None);
            var r := OnStatusChanged(u, ReadyToPlay, None, None);
            && u.asset == Some(Asset(s.nextRef, url)) && u.events == s.events + [Completion(true, None)]
            && r.events == s.events + [Completion(true, None), Ready]
  {
    var t := SetVideoUrl(s, Some(url), true);
    assert t.pending[|s.pending|] == Load(Asset(s.nextRef, url), true);
  }

  /** A failed load with error `e`: the completion gets (false, e), the delegate hears of
      `e` as well when it implements the error method, and no asset is installed. */
  lemma LoadFails(s: State, url: Url, e: MediaError)
    requires Inv(s) && s.videoUrl != Some(url)
    ensures var t := SetVideoUrl(s, Some(url), true);
            var u := OnTracksLoaded(t, |s.pending|, false, Some(e));
            && u.asset.None? && u.playerItem.None?
            && u.events == s.events + [Completion(false, Some(e))] + Delivered(s.delegate, EncounteredError(e))
  {
    var t := SetVideoUrl(s, Some(url), true);
    assert t.pending[|s.pending|] == Load(Asset(s.nextRef, url), true);
  }

  /** With the controller as delegate, load errors reach only the completion. */
  lemma ControllerDropsErrors(s: State, i: nat, e: MediaError)
    requires s.delegate == Some(ControllerDelegate) && i < |s.pending|
    ensures OnTracksLoaded(s, i, false, Some(e)).events
            == s.events + CompletionFor(s.pending[i].hasCompletion, false, Some(e))
  {
  }

  /** End of playback with the controller as delegate: the finished notification makes
      the controller call reset(), whose seek completion re-arms the view with exactly
      one ready notification, paused. */
  lemma FinishedThenControllerReset(s: State, finished: bool)
    requires Inv(s) && s.playerItem.Some? && s.delegate == Some(ControllerDelegate)
    ensures var t := OnPlayedToEnd(s, Some(s.playerItem.value.id));
            var r := OnSeekCompleted(Reset(t), finished);
            && !t.isPlaying && t.events == s.events + [FinishedPlaying]
            && !r.isPlaying && r.events == s.events + [FinishedPlaying, Ready]
  {
  }

}
