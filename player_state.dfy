/**
 * The bookkeeping of VideoPlayerView (Common/VideoPlayerView.swift) as a pure state
 * machine: one state record and one function per operation or continuation.
 * The class in video_player_view.dfy is proved against these functions, and the
 * lemmas in player_properties.dfy are stated over them.
 *
 * AVFoundation stays opaque: an asset or a player item is only an identity drawn from
 * a counter, the player is the value of its current item, that item's status and
 * error, and whether the view last told the transport to run.
 */
module PlayerState {

  datatype Option<T> = None | Some(value: T)

  /** A media locator, compared by value as Swift compares URL values. */
  type Url = string

  /** The identity of an object the media framework allocates (an asset or an item). */
  type Ref = nat

  /** An error the media framework reports, kept opaque. */
  datatype MediaError = MediaError(code: int)

  /** The status of a player item. */
  datatype Status = Unknown | ReadyToPlay | Failed

  /** A presentation size; the model only ever compares it with zero. */
  datatype Size = Size(width: int, height: int)

  const ZeroSize := Size(0, 0)

  /** What the view reports to layout: the platform's no-intrinsic-size sentinel, or a size. */
  datatype ContentSize = NoIntrinsicSize | Intrinsic(size: Size)

  /** An asset created for a URL; `id` is its object identity. */
  datatype Asset = Asset(id: Ref, url: Url)

  /** A player item built from an asset; `id` is its object identity. */
  datatype Item = Item(id: Ref, asset: Asset)

  /** The player: its current item, that item's status and error, and whether the
      transport was last told to play (true) or to pause (false). */
  datatype Player = Player(currentItem: Option<Item>, status: Status, error: Option<MediaError>, running: bool)

  /** Which of the delegate protocol's three optional methods the delegate implements. */
  datatype Delegate = Delegate(handlesError: bool, handlesFinished: bool, handlesReady: bool)

  /** What the view hands to the outside: the three delegate notifications, an
      invocation of a load's completion callback, and a layout invalidation. */
  datatype Event =
    | Ready
    | FinishedPlaying
    | EncounteredError(error: MediaError)
    | Completion(success: bool, outcome: Option<MediaError>)
    | LayoutInvalidated

  /** A track load started by setVideoUrl whose continuation has not run yet. */
  datatype Load = Load(asset: Asset, hasCompletion: bool)

  /** The view's stored properties, with the collaborators' state they drive.
      `subscribed` names the item that the size and status observers and the two
      end-of-item notification subscriptions are attached to. */
  datatype State = State(
    delegate: Option<Delegate>,
    isPlaying: bool,
    videoSize: Size,
    videoUrl: Option<Url>,
    asset: Option<Asset>,
    playerItem: Option<Item>,
    player: Player,
    subscribed: Option<Ref>,
    pending: seq<Load>,
    pendingSeeks: nat,
    nextRef: Ref,
    events: seq<Event>)

  function IdOf(item: Option<Item>): Option<Ref> {
    if item.Some? then Some(item.value.id) else None
  }

  /** What the view keeps true between steps: the player plays `playerItem`, the
      observers are on that item and nothing else, the item is built from `asset`,
      the transport only runs with an item, and every identity in use was allocated. */
  predicate Inv(s: State) {
    && s.player.currentItem == s.playerItem
    && s.subscribed == IdOf(s.playerItem)
    && (s.playerItem.Some? <==> s.asset.Some?)
    && (s.playerItem.Some? ==>
          s.playerItem.value.asset == s.asset.value
          && s.playerItem.value.id < s.nextRef
          && s.asset.value.id < s.nextRef)
    && (s.player.running ==> s.playerItem.Some?)
    && (forall i :: 0 <= i < |s.pending| ==> s.pending[i].asset.id < s.nextRef)
  }

  /** A freshly decoded view: nothing loaded, nothing playing, size zero. */
  function Initial(delegate: Option<Delegate>): (s: State)
    ensures Inv(s)
    ensures !s.isPlaying && s.videoUrl.None? && s.asset.None? && s.player.currentItem.None?
    ensures IntrinsicContentSize(s.videoSize) == NoIntrinsicSize
    ensures s.events == []
  {
    State(delegate, false, ZeroSize, None, None, None, Player(None, Unknown, None, false),
          None, [], 0, 0, [])
  }

  /** intrinsicContentSize: the sentinel exactly when the measured size is zero. */
  function IntrinsicContentSize(videoSize: Size): (r: ContentSize)
    ensures r == NoIntrinsicSize <==> videoSize == ZeroSize
    ensures r.Intrinsic? ==> r.size == videoSize
  {
    if videoSize == ZeroSize then NoIntrinsicSize else Intrinsic(videoSize)
  }

  // ---------------------------------------------------------------- notifications

  /** Whether the delegate, if any, implements the optional method for `e`. */
  predicate Implements(delegate: Option<Delegate>, e: Event) {
    match delegate
    case None => false
    case Some(d) =>
      match e
      case Ready => d.handlesReady
      case FinishedPlaying => d.handlesFinished
      case EncounteredError(_) => d.handlesError
      case _ => false
  }

  /** The notifications that reach the delegate when the view raises `e`. */
  function Delivered(delegate: Option<Delegate>, e: Event): seq<Event> {
    if Implements(delegate, e) then [e] else []
  }

  /** notifyReady / notifyFinishedPlaying / notifyError: call the delegate's method if
      there is a delegate and it implements it; otherwise do nothing. */
  function Notify(s: State, e: Event): State {
    s.(events := s.events + Delivered(s.delegate, e))
  }

  // ---------------------------------------------------------------- public operations

  predicate ItemReady(s: State) {
    s.player.currentItem.Some? && s.player.status == ReadyToPlay
  }

  /** play(): a no-op while already playing; otherwise records the intent and starts the
      transport only when the current item is ready to play. */
  function Play(s: State): (r: State)
    ensures s.isPlaying ==> r == s
    ensures !s.isPlaying ==> r.isPlaying && (r.player.running <==> s.player.running || ItemReady(s))
    ensures r == s.(isPlaying := r.isPlaying, player := s.player.(running := r.player.running))
    ensures Inv(s) ==> Inv(r)
  {
    if s.isPlaying then s
    else
      var player := if ItemReady(s) then s.player.(running := true) else s.player;
      s.(isPlaying := true, player := player)
  }

  /** pause(): the transport is paused and the intent cleared, from any state. */
  function Pause(s: State): (r: State)
    ensures !r.isPlaying && !r.player.running
    ensures r == s.(isPlaying := r.isPlaying, player := s.player.(running := r.player.running))
    ensures Inv(s) ==> Inv(r)
  {
    s.(isPlaying := false, player := s.player.(running := false))
  }

  /** reset(): pause, then ask the player to seek to zero; the seek's completion is a
      continuation that runs later (OnSeekCompleted). */
  function Reset(s: State): (r: State)
    ensures !r.isPlaying && !r.player.running
    ensures r.pendingSeeks == s.pendingSeeks + 1
    ensures r == Pause(s).(pendingSeeks := r.pendingSeeks)
    ensures Inv(s) ==> Inv(r)
  {
    Pause(s).(pendingSeeks := s.pendingSeeks + 1)
  }

  /** The willSet and didSet observers of `playerItem`: pause, drop the observers and
      subscriptions of the old item, attach them to the new one, and hand it to the
      player as its current item. */
  function ReplaceItem(s: State, item: Option<Item>): (r: State)
    ensures !r.isPlaying && !r.player.running
    ensures r.playerItem == item && r.player.currentItem == item && r.subscribed == IdOf(item)
    ensures r.player.status == Unknown && r.player.error.None?
    ensures r == s.(isPlaying := false, playerItem := item, player := r.player, subscribed := r.subscribed)
  {
    // willSet
    var paused := Pause(s);
    var detached := paused.(subscribed := None);
    // didSet
    detached.(playerItem := item, subscribed := IdOf(item),
              player := detached.player.(currentItem := item, status := Unknown, error := None))
  }

  /** Any assignment to `asset` (nil to nil included): its didSet builds a fresh item
      from the new asset, or none for nil, and assigns it to `playerItem`. */
  function AssignAsset(s: State, a: Option<Asset>): (r: State)
    ensures r.asset == a
    ensures r.playerItem.None? <==> a.None?
    ensures r.playerItem.Some? ==> r.playerItem.value == Item(s.nextRef, a.value)
    ensures r.player.currentItem == r.playerItem && r.subscribed == IdOf(r.playerItem)
    ensures !r.isPlaying && !r.player.running
    ensures r.player == Player(r.playerItem, Unknown, None, false)
    ensures r.nextRef == (if a.Some? then s.nextRef + 1 else s.nextRef)
    ensures r == s.(asset := a, isPlaying := false, playerItem := r.playerItem, player := r.player,
                    subscribed := r.subscribed, nextRef := r.nextRef)
    ensures Inv(s) && (a.Some? ==> a.value.id < s.nextRef) ==> Inv(r)
  {
    var s1 := s.(asset := a);
    if a.None? then ReplaceItem(s1, None)
    else ReplaceItem(s1.(nextRef := s.nextRef + 1), Some(Item(s.nextRef, a.value)))
  }

  /** The completion outcome a completion callback receives. */
  function CompletionFor(hasCompletion: bool, success: bool, error: Option<MediaError>): seq<Event> {
    if hasCompletion then [Completion(success, error)] else []
  }

  /** setVideoUrl(url, completion). The same URL again changes nothing but answers the
      completion with (an asset is loaded and the URL is non-nil, no error); nil clears
      the asset and answers (true, no error); a new URL starts one load of a fresh asset
      and leaves the current asset and item playing until that load completes. */
  function SetVideoUrl(s: State, url: Option<Url>, hasCompletion: bool): (r: State)
    ensures url == s.videoUrl ==>
      r == s.(events := s.events + CompletionFor(hasCompletion, s.asset.Some? && url.Some?, None))
    ensures url != s.videoUrl && url.None? ==>
      && r.videoUrl.None? && r.asset.None? && r.playerItem.None? && r.player.currentItem.None?
      && !r.isPlaying && r.pending == s.pending
      && r.events == s.events + CompletionFor(hasCompletion, true, None)
      && r == s.(videoUrl := None, asset := None, playerItem := None, subscribed := None,
                 isPlaying := false, player := Player(None, Unknown, None, false), events := r.events)
    ensures url != s.videoUrl && url.Some? ==>
      && r.videoUrl == url
      && r.pending == s.pending + [Load(Asset(s.nextRef, url.value), hasCompletion)]
      && r == s.(videoUrl := url, pending := r.pending, nextRef := s.nextRef + 1)
    ensures s.events <= r.events
    ensures Inv(s) ==> Inv(r)
  {
    if s.videoUrl == url then
      s.(events := s.events + CompletionFor(hasCompletion, s.asset.Some? && url.Some?, None))
    else
      var s1 := s.(videoUrl := url);
      if url.None? then
        var s2 := AssignAsset(s1, None);
        s2.(events := s2.events + CompletionFor(hasCompletion, true, None))
      else
        s1.(pending := s.pending + [Load(Asset(s.nextRef, url.value), hasCompletion)],
            nextRef := s.nextRef + 1)
  }

  /** removeFromSuperview(): clears the asset, and with it the item; the URL stays. */
  function RemoveFromSuperview(s: State): (r: State)
    ensures r.asset.None? && r.playerItem.None? && r.player.currentItem.None? && r.subscribed.None?
    ensures !r.isPlaying && !r.player.running
    ensures r.videoUrl == s.videoUrl && r.events == s.events && r.pending == s.pending
    ensures r == s.(asset := None, playerItem := None, subscribed := None, isPlaying := false,
                    player := Player(None, Unknown, None, false))
    ensures Inv(s) ==> Inv(r)
  {
    AssignAsset(s, None)
  }

  /** Assigning the (weak) delegate property. */
  function SetDelegate(s: State, delegate: Option<Delegate>): (r: State)
    ensures r.delegate == delegate && r == s.(delegate := r.delegate)
    ensures Inv(s) ==> Inv(r)
  {
    s.(delegate := delegate)
  }

  // ---------------------------------------------------------------- continuations

  /** The continuation of load `i` once its tracks are resolved: install the pending
      asset iff it loaded (nil otherwise), call the completion with (loaded, error), and
      raise the error notification iff there is an error, so an error reaches the
      caller on both channels. */
  function OnTracksLoaded(s: State, i: nat, loaded: bool, error: Option<MediaError>): (r: State)
    requires i < |s.pending|
    ensures r.asset == (if loaded then Some(s.pending[i].asset) else None)
    ensures r.playerItem == (if loaded then Some(Item(s.nextRef, s.pending[i].asset)) else None)
    ensures !r.isPlaying && !r.player.running
    ensures r.player == Player(r.playerItem, Unknown, None, false)
    ensures r.pending == s.pending[..i] + s.pending[i + 1..]
    ensures r.events == s.events
                        + CompletionFor(s.pending[i].hasCompletion, loaded, error)
                        + (if error.Some? then Delivered(s.delegate, EncounteredError(error.value)) else [])
    ensures r == s.(asset := r.asset, playerItem := r.playerItem, subscribed := IdOf(r.playerItem),
                    isPlaying := false, player := r.player, pending := r.pending,
                    nextRef := (if loaded then s.nextRef + 1 else s.nextRef), events := r.events)
    ensures Inv(s) ==> Inv(r)
  {
    var load := s.pending[i];
    var s1 := s.(pending := s.pending[..i] + s.pending[i + 1..]);
    var s2 := AssignAsset(s1, if loaded then Some(load.asset) else None);
    var s3 := s2.(events := s2.events + CompletionFor(load.hasCompletion, loaded, error));
    if error.Some? then Notify(s3, EncounteredError(error.value)) else s3
  }

  /** The seek-to-zero completion that reset() registered: raises the ready
      notification, whatever `finished` says. */
  function OnSeekCompleted(s: State, finished: bool): (r: State)
    requires s.pendingSeeks > 0
    ensures r.events == s.events + Delivered(s.delegate, Ready)
    ensures r == s.(pendingSeeks := s.pendingSeeks - 1, events := r.events)
    ensures Inv(s) ==> Inv(r)
  {
    Notify(s.(pendingSeeks := s.pendingSeeks - 1), Ready)
  }

  /** The status observer, run after the observed item's status became `status` (with
      `error` as the item's error); `oldStatus` is the change's old value, if reported. */
  function OnStatusChanged(s: State, status: Status, oldStatus: Option<Status>, error: Option<MediaError>): (r: State)
    ensures s.subscribed.None? ==> r == s
    ensures s.subscribed.Some? ==> r.player.status == status && r.player.error == error
    ensures r == s.(player := r.player, events := r.events)
    ensures r.player.currentItem == s.player.currentItem
    // (ready, ready): restart the transport iff the intent is to play; nothing is raised
    ensures s.subscribed.Some? && status == ReadyToPlay && oldStatus == Some(ReadyToPlay) ==>
      r.events == s.events && (r.player.running <==> s.player.running || s.isPlaying)
    // (ready, anything else): exactly one ready notification
    ensures s.subscribed.Some? && status == ReadyToPlay && oldStatus != Some(ReadyToPlay) ==>
      r.events == s.events + Delivered(s.delegate, Ready) && r.player.running == s.player.running
    // (failed, _): one error notification iff the item carries an error
    ensures s.subscribed.Some? && status == Failed ==>
      r.events == s.events + (if error.Some? then Delivered(s.delegate, EncounteredError(error.value)) else [])
      && r.player.running == s.player.running
    // everything else: no reaction
    ensures status == Unknown ==> r.events == s.events && r.player.running == s.player.running
    ensures Inv(s) ==> Inv(r)
  {
    if s.subscribed.None? then s
    else
      var t := s.(player := s.player.(status := status, error := error));
      match (status, oldStatus)
      case (ReadyToPlay, Some(ReadyToPlay)) =>
        if t.isPlaying then t.(player := t.player.(running := true)) else t
      case (ReadyToPlay, _) => Notify(t, Ready)
      case (Failed, _) => if error.Some? then Notify(t, EncounteredError(error.value)) else t
      case _ => t
  }

  /** The size observer: the observed item's presentation size becomes `videoSize`, and
      layout is told to ask for the intrinsic size again. */
  function OnSizeChanged(s: State, size: Size): (r: State)
    ensures s.subscribed.None? ==> r == s
    ensures s.subscribed.Some? ==>
      && r.videoSize == size
      && IntrinsicContentSize(r.videoSize) == (if size == ZeroSize then NoIntrinsicSize else Intrinsic(size))
      && r.events == s.events + [LayoutInvalidated]
    ensures r == s.(videoSize := r.videoSize, events := r.events)
    ensures Inv(s) ==> Inv(r)
  {
    if s.subscribed.None? then s
    else s.(videoSize := size, events := s.events + [LayoutInvalidated])
  }

  /** Whether a notification's object is the player's current item (by identity);
      None stands for an object that is absent or is not a player item. */
  predicate IsCurrent(s: State, item: Option<Ref>) {
    item.Some? && s.player.currentItem.Some? && item.value == s.player.currentItem.value.id
  }

  /** playerItemDidReachEnd: for the current item, clear the intent and raise the
      finished notification; for any other object, nothing. */
  function OnPlayedToEnd(s: State, item: Option<Ref>): (r: State)
    ensures !IsCurrent(s, item) ==> r == s
    ensures IsCurrent(s, item) ==>
      !r.isPlaying && r.events == s.events + Delivered(s.delegate, FinishedPlaying)
    ensures r == s.(isPlaying := r.isPlaying, events := r.events)
    ensures Inv(s) ==> Inv(r)
  {
    if IsCurrent(s, item) then Notify(s.(isPlaying := false), FinishedPlaying) else s
  }

  /** playerItemDidEncounterError: for the current item and a notification that carries
      an error, raise the error notification; otherwise nothing. */
  function OnFailedToEnd(s: State, item: Option<Ref>, error: Option<MediaError>): (r: State)
    ensures r.events == s.events +
      (if IsCurrent(s, item) && error.Some? then Delivered(s.delegate, EncounteredError(error.value)) else [])
    ensures r == s.(events := r.events)
    ensures Inv(s) ==> Inv(r)
  {
    if IsCurrent(s, item) && error.Some? then Notify(s, EncounteredError(error.value)) else s
  }
}
