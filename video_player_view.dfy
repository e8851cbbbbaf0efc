/**
 * VideoPlayerView (Common/VideoPlayerView.swift) as a class whose methods update its
 * stored properties step by step, as the Swift property observers chain them:
 * assigning `asset` assigns `playerItem`, whose willSet pauses and detaches the old
 * item and whose didSet attaches the new one and hands it to the player.
 *
 * Every method is proved to move the view from `old(Model())` to the state that the
 * matching function of PlayerState gives, and to keep `Valid()`.
 * The asynchronous continuations (track load, seek, key-value observers, end-of-item
 * notifications) are methods the environment calls, each as one atomic step.
 */
module VideoPlayer {
  import opened PlayerState

  class VideoPlayerView {
    var delegate: Option<Delegate>
    var isPlaying: bool
    var videoSize: Size
    var videoUrlPrivate: Option<Url>
    var asset: Option<Asset>
    var playerItem: Option<Item>
    /** The AVPlayer collaborator, as the value of what the view drives in it. */
    var player: Player
    /** The item the size and status observers and the two notification
        subscriptions are attached to, if any. */
    var subscribed: Option<Ref>
    /** Track loads started and not yet completed, each holding its completion. */
    var pendingLoads: seq<Load>
    /** Seek-to-zero requests whose completion has not run yet. */
    var pendingSeeks: nat
    /** The next identity the media framework hands out for an asset or an item. */
    var nextRef: Ref
    /** Delegate notifications, completion invocations and layout invalidations, in order. */
    ghost var events: seq<Event>

    ghost function Model(): State
      reads this
    {
      State(delegate, isPlaying, videoSize, videoUrlPrivate, asset, playerItem, player,
            subscribed, pendingLoads, pendingSeeks, nextRef, events)
    }

    ghost predicate Valid()
      reads this
    {
      Inv(Model())
    }

    /** init(coder:): nothing loaded, nothing playing, an empty player. */
    constructor (delegate: Option<Delegate>)
      ensures Valid() && Model() == Initial(delegate)
    {
      this.delegate := delegate;
      isPlaying := false;
      videoSize := ZeroSize;
      videoUrlPrivate := None;
      asset := None;
      playerItem := None;
      player := Player(None, Unknown, None, false);
      subscribed := None;
      pendingLoads := [];
      pendingSeeks := 0;
      nextRef := 0;
      events := [];
    }

    // ------------------------------------------------------------ public methods

    method Play()
      requires Valid()
      modifies this
      ensures Valid() && Model() == PlayerState.Play(old(Model()))
      ensures isPlaying
    {
      if isPlaying {
        return;
      }
      if player.currentItem.Some? && player.status == ReadyToPlay {
        player := player.(running := true);
      }
      isPlaying := true;
    }

    method Pause()
      modifies this
      ensures Model() == PlayerState.Pause(old(Model()))
      ensures !isPlaying && !player.running
      ensures old(Valid()) ==> Valid()
    {
      player := player.(running := false);
      isPlaying := false;
    }

    method Reset()
      requires Valid()
      modifies this
      ensures Valid() && Model() == PlayerState.Reset(old(Model()))
      ensures pendingSeeks == old(pendingSeeks) + 1
    {
      Pause();
      pendingSeeks := pendingSeeks + 1;
    }

    method SetVideoUrl(url: Option<Url>, hasCompletion: bool)
      requires Valid()
      modifies this
      ensures Valid() && Model() == PlayerState.SetVideoUrl(old(Model()), url, hasCompletion)
      ensures videoUrlPrivate == url
    {
      if videoUrlPrivate == url {
        if !hasCompletion {
          return;
        }
        events := events + [Completion(asset.Some? && url.Some?, None)];
        return;
      }
      videoUrlPrivate := url;
      if url.None? {
        SetAsset(None);
        if !hasCompletion {
          return;
        }
        events := events + [Completion(true, None)];
        return;
      }
      var pendingAsset := Asset(nextRef, url.value);
      nextRef := nextRef + 1;
      pendingLoads := pendingLoads + [Load(pendingAsset, hasCompletion)];
    }

    method RemoveFromSuperview()
      requires Valid()
      modifies this
      ensures Valid() && Model() == PlayerState.RemoveFromSuperview(old(Model()))
      ensures asset.None? && playerItem.None?
    {
      SetAsset(None);
    }

    method SetDelegate(d: Option<Delegate>)
      requires Valid()
      modifies this
      ensures Valid() && Model() == PlayerState.SetDelegate(old(Model()), d)
    {
      delegate := d;
    }

    // ------------------------------------------------------------ continuations

    /** The main-thread block run once load `i` has resolved its tracks. */
    method OnTracksLoaded(i: nat, loaded: bool, error: Option<MediaError>)
      requires Valid() && i < |pendingLoads|
      modifies this
      ensures Valid() && Model() == PlayerState.OnTracksLoaded(old(Model()), i, loaded, error)
      ensures |pendingLoads| == old(|pendingLoads|) - 1
    {
      ghost var s0 := Model();
      var load := pendingLoads[i];
      pendingLoads := pendingLoads[..i] + pendingLoads[i + 1..];
      ghost var s1 := Model();
      if loaded {
        SetAsset(Some(load.asset));
      } else {
        SetAsset(None);
      }
      ghost var s2 := Model();
      assert s2 == AssignAsset(s1, if loaded then Some(load.asset) else None);
      if load.hasCompletion {
        events := events + [Completion(loaded, error)];
      }
      assert Model() == s2.(events := s2.events + CompletionFor(load.hasCompletion, loaded, error));
      if error.Some? {
        NotifyError(error.value);
      }
      assert Model() == PlayerState.OnTracksLoaded(s0, i, loaded, error);
    }

    /** The completion of the seek that reset() started. */
    method OnSeekCompleted(finished: bool)
      requires Valid() && pendingSeeks > 0
      modifies this
      ensures Valid() && Model() == PlayerState.OnSeekCompleted(old(Model()), finished)
    {
      pendingSeeks := pendingSeeks - 1;
      NotifyReady();
    }

    /** The status observer's block, after the observed item's status and error changed. */
    method OnStatusChanged(status: Status, oldStatus: Option<Status>, error: Option<MediaError>)
      requires Valid()
      modifies this
      ensures Valid() && Model() == PlayerState.OnStatusChanged(old(Model()), status, oldStatus, error)
    {
      if subscribed.None? {
        return;
      }
      player := player.(status := status, error := error);
      match (status, oldStatus)
      case (ReadyToPlay, Some(ReadyToPlay)) =>
        if isPlaying {
          player := player.(running := true);
        }
      case (ReadyToPlay, _) =>
        NotifyReady();
      case (Failed, _) =>
        if error.Some? {
          NotifyError(error.value);
        }
      case _ =>
    }

    /** The presentation-size observer's block. */
    method OnSizeChanged(size: Size)
      requires Valid()
      modifies this
      ensures Valid() && Model() == PlayerState.OnSizeChanged(old(Model()), size)
    {
      if subscribed.None? {
        return;
      }
      videoSize := size;
      events := events + [LayoutInvalidated];
    }

    /** playerItemDidReachEnd(_:) for a notification whose object is `item`. */
    method OnPlayedToEnd(item: Option<Ref>)
      requires Valid()
      modifies this
      ensures Valid() && Model() == PlayerState.OnPlayedToEnd(old(Model()), item)
    {
      if item.None? || player.currentItem.None? || item.value != player.currentItem.value.id {
        return;
      }
      isPlaying := false;
      NotifyFinishedPlaying();
    }

    /** playerItemDidEncounterError(_:) for a notification whose object is `item`. */
    method OnFailedToEnd(item: Option<Ref>, error: Option<MediaError>)
      requires Valid()
      modifies this
      ensures Valid() && Model() == PlayerState.OnFailedToEnd(old(Model()), item, error)
    {
      if item.None? || player.currentItem.None? || item.value != player.currentItem.value.id || error.None? {
        return;
      }
      NotifyError(error.value);
    }

    // ------------------------------------------------------------ property observers

    /** `asset.didSet`: a fresh item for a non-nil asset, none for nil. */
    method SetAsset(a: Option<Asset>)
      modifies this
      ensures Model() == AssignAsset(old(Model()), a)
    {
      asset := a;
      if a.None? {
        SetPlayerItem(None);
      } else {
        var item := Item(nextRef, a.value);
        nextRef := nextRef + 1;
        SetPlayerItem(Some(item));
      }
    }

    /** `playerItem.willSet` followed by `playerItem.didSet`. */
    method SetPlayerItem(item: Option<Item>)
      modifies this
      ensures Model() == ReplaceItem(old(Model()), item)
    {
      // willSet: pause, invalidate both observers, remove both subscriptions
      Pause();
      subscribed := None;
      // didSet: observe and subscribe to the new item, make it the player's current item
      playerItem := item;
      subscribed := IdOf(item);
      player := player.(currentItem := item, status := Unknown, error := None);
    }

    // ------------------------------------------------------------ delegate notifications

    method NotifyError(error: MediaError)
      modifies this
      ensures Model() == Notify(old(Model()), EncounteredError(error))
    {
      if Implements(delegate, EncounteredError(error)) {
        events := events + [EncounteredError(error)];
      }
    }

    method NotifyFinishedPlaying()
      modifies this
      ensures Model() == Notify(old(Model()), FinishedPlaying)
    {
      if Implements(delegate, FinishedPlaying) {
        events := events + [FinishedPlaying];
      }
    }

    method NotifyReady()
      modifies this
      ensures Model() == Notify(old(Model()), Ready)
    {
      if Implements(delegate, Ready) {
        events := events + [Ready];
      }
    }
  }
}
