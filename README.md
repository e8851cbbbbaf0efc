# VideoPlayerView playback state machine in Dafny

This project models the bookkeeping of `VideoPlayerView`, the cross-platform view that
wraps an AVFoundation player (Common/VideoPlayerView.swift). The model covers the
playing intent `isPlaying`, the measured `videoSize`, the current URL, the `asset` and
the `playerItem` built from it, and the player's current item, status, error and
transport. It also covers the observers and subscriptions attached to the item, the
optional delegate with its three optional notifications, and the completion callbacks
of `setVideoUrl`.

Three modules:

- `PlayerState` (player_state.dfy): the view's state as a value `State`, the invariant
  `Inv`, and one function per operation (`Play`, `Pause`, `Reset`, `SetVideoUrl`,
  `RemoveFromSuperview`, the `asset` and `playerItem` property observers as `AssignAsset`
  and `ReplaceItem`) and per asynchronous continuation (`OnTracksLoaded`,
  `OnSeekCompleted`, `OnStatusChanged`, `OnSizeChanged`, `OnPlayedToEnd`,
  `OnFailedToEnd`). Each function's contract states what the operation means. Every
  public operation and continuation keeps `Inv`. `AssignAsset` keeps it when the new
  asset's identity was already allocated. `ReplaceItem` alone does not keep it, since it
  changes the item without the asset.
- `VideoPlayer` (video_player_view.dfy): the class `VideoPlayerView`. Its fields are the
  view's stored properties. Its methods update them step by step, the way the Swift
  property observers chain them. Each method is proved to take `old(Model())` to the
  state that the matching `PlayerState` function gives. The public methods and the
  continuations also keep `Valid()`. The private steps (`SetAsset`, `SetPlayerItem`,
  the three `Notify` methods) are only proved against their functions.
- `PlayerProperties` (player_properties.dfy): `Step` and `Run` over any interleaving of
  calls and continuations, lemmas by induction over such runs, and the edge cases and
  scenarios that the code settles. This includes `VideoViewController`
  (Common/VideoViewController.swift) acting as the delegate.

AVFoundation is an opaque collaborator. An asset or a player item is an identity taken
from a counter (`nextRef`), so "the same item" means the same object, as in the
source's `item == player.currentItem`. The player is a value: its current item, that
item's status and error, and whether the view last told the transport to play or to
pause. The observers and the two end-of-item subscriptions are one field,
`subscribed`, which names the item they are attached to. Every continuation is one
atomic step that the environment chooses to run. The ghost log `events` records, in
order, delegate notifications (only those the delegate implements), completion
invocations and layout invalidations.

`play()` before the item is ready only records the intent. The status switch
(Common/VideoPlayerView.swift:157-171) raises the ready notification when the item
becomes ready. It restarts the transport only on a ready-to-ready change. So after an
early `play()` the transport stays stopped, and a second `play()` does nothing
(`PlayerProperties.PlayBeforeReadyNeverStarts`). The program never reports a
ready-to-ready change at all. The status observation at
Common/VideoPlayerView.swift:155 passes no options, so the change's old value is always
nil and every change into ready only notifies
(`PlayerProperties.StatusChangeWithoutOldValue`).

## Model

| member | source | states |
|---|---|---|
| PlayerState.Inv | Common/VideoPlayerView.swift:134-187 | the player's current item is `playerItem`; observers and subscriptions are on that item only; the item is built from `asset`, and only when there is one; the transport runs only with an item; every identity in use was allocated |
| PlayerState.Initial | Common/VideoPlayerView.swift:25-27 | a new view: not playing, no URL, no asset, no current item, no intrinsic size, nothing notified; the invariant holds |
| PlayerState.IntrinsicContentSize | Common/VideoPlayerView.swift:108-111 | the no-intrinsic-size sentinel exactly when `videoSize` is zero, otherwise `videoSize` itself |
| PlayerState.Play | Common/VideoPlayerView.swift:53-59 | a no-op when already playing; otherwise `isPlaying` becomes true and the transport runs iff it already ran or the current item is ready to play; nothing else changes; keeps the invariant |
| PlayerState.Pause | Common/VideoPlayerView.swift:61-64 | from any state the transport is paused and `isPlaying` is false, nothing else changes; keeps the invariant |
| PlayerState.Reset | Common/VideoPlayerView.swift:66-71 | the paused state with one more seek completion outstanding |
| PlayerState.ReplaceItem | Common/VideoPlayerView.swift:138-187 | replacing the item pauses, moves observers and subscriptions to the new item, makes it the player's current item with unknown status and no error |
| PlayerState.AssignAsset | Common/VideoPlayerView.swift:134-136 | every assignment to `asset`, nil to nil included, leaves `playerItem` nil iff the asset is nil, otherwise a freshly allocated item of that asset; pauses; the player's current item is the new item, with unknown status and no error; one identity is allocated iff the asset is non-nil; `videoSize`, URL, delegate, loads, seeks and log are kept; keeps the invariant when the asset's identity was allocated |
| PlayerState.SetVideoUrl | Common/VideoPlayerView.swift:73-104 | the same URL changes nothing but answers the completion, if any, with (asset present and URL non-nil, no error); nil after another URL stores nil, clears asset, item, observers and current item, pauses, keeps `videoSize`, delegate, loads and seeks, and answers (true, no error); a new URL is stored and starts exactly one load of a fresh asset, with nothing else changed |
| PlayerState.RemoveFromSuperview | Common/VideoPlayerView.swift:127-130 | asset, item, observers and current item are cleared, playback paused; everything else stays, including the URL, `videoSize` (so the old intrinsic size is still reported), delegate, loads, seeks and log |
| PlayerState.SetDelegate | Common/VideoPlayerView.swift:23 | only the delegate changes |
| PlayerState.OnTracksLoaded | Common/VideoPlayerView.swift:87-103 | the asset becomes the pending asset iff `loaded`, nil otherwise, with a freshly allocated item of unknown status; playback paused; the load is consumed; `videoSize`, URL, delegate and seeks are kept; the completion, if any, gets (loaded, error); then the delegate hears of the error iff there is one, so an error can arrive on both channels |
| PlayerState.OnSeekCompleted | Common/VideoPlayerView.swift:68-70 | exactly one ready notification (if the delegate implements it), whatever `finished` is; one fewer seek outstanding; nothing else changes |
| PlayerState.OnStatusChanged | Common/VideoPlayerView.swift:155-173 | with no observed item, nothing; (ready, ready) restarts the transport iff `isPlaying` and notifies nothing; (ready, other or none) raises exactly one ready notification; (failed, _) raises one error notification iff the item has an error; other transitions only record the status |
| PlayerState.OnSizeChanged | Common/VideoPlayerView.swift:149-154 | with an observed item, `videoSize` becomes the presentation size, so the intrinsic size is the sentinel iff that size is zero, and layout is invalidated once; otherwise nothing |
| PlayerState.OnPlayedToEnd | Common/VideoPlayerView.swift:221-227 | for the player's current item, `isPlaying` becomes false and the finished notification is raised; for any other object, nothing changes |
| PlayerState.OnFailedToEnd | Common/VideoPlayerView.swift:214-219 | an error notification only for the current item and a present error; nothing else ever changes |
| VideoPlayer.VideoPlayerView.constructor | Common/VideoPlayerView.swift:39-49 | the new view's model is the initial state and is valid |
| VideoPlayer.VideoPlayerView.Play | Common/VideoPlayerView.swift:53-59 | the fields move as `PlayerState.Play` says; the view is playing afterwards; validity kept |
| VideoPlayer.VideoPlayerView.Pause | Common/VideoPlayerView.swift:61-64 | the fields move as `PlayerState.Pause` says: transport paused, intent cleared |
| VideoPlayer.VideoPlayerView.Reset | Common/VideoPlayerView.swift:66-71 | the fields move as `PlayerState.Reset` says |
| VideoPlayer.VideoPlayerView.SetVideoUrl | Common/VideoPlayerView.swift:73-104 | the fields move as `PlayerState.SetVideoUrl` says; the stored URL is the argument afterwards |
| VideoPlayer.VideoPlayerView.RemoveFromSuperview | Common/VideoPlayerView.swift:127-130 | the fields move as `PlayerState.RemoveFromSuperview` says; no asset and no item afterwards |
| VideoPlayer.VideoPlayerView.SetDelegate | Common/VideoPlayerView.swift:23 | only the delegate changes |
| VideoPlayer.VideoPlayerView.OnTracksLoaded | Common/VideoPlayerView.swift:87-103 | the fields move as `PlayerState.OnTracksLoaded` says; one pending load fewer |
| VideoPlayer.VideoPlayerView.OnSeekCompleted | Common/VideoPlayerView.swift:68-70 | the fields move as `PlayerState.OnSeekCompleted` says |
| VideoPlayer.VideoPlayerView.OnStatusChanged | Common/VideoPlayerView.swift:155-173 | the fields move as `PlayerState.OnStatusChanged` says |
| VideoPlayer.VideoPlayerView.OnSizeChanged | Common/VideoPlayerView.swift:149-154 | the fields move as `PlayerState.OnSizeChanged` says |
| VideoPlayer.VideoPlayerView.OnPlayedToEnd | Common/VideoPlayerView.swift:221-227 | the fields move as `PlayerState.OnPlayedToEnd` says |
| VideoPlayer.VideoPlayerView.OnFailedToEnd | Common/VideoPlayerView.swift:214-219 | the fields move as `PlayerState.OnFailedToEnd` says |
| VideoPlayer.VideoPlayerView.SetAsset | Common/VideoPlayerView.swift:134-136 | the fields move as `PlayerState.AssignAsset` says |
| VideoPlayer.VideoPlayerView.SetPlayerItem | Common/VideoPlayerView.swift:138-187 | the fields move as `PlayerState.ReplaceItem` says |
| VideoPlayer.VideoPlayerView.NotifyError | Common/VideoPlayerView.swift:195-198 | the error is logged iff the delegate implements the error method |
| VideoPlayer.VideoPlayerView.NotifyFinishedPlaying | Common/VideoPlayerView.swift:200-203 | the finished notification is logged iff the delegate implements it |
| VideoPlayer.VideoPlayerView.NotifyReady | Common/VideoPlayerView.swift:205-208 | the ready notification is logged iff the delegate implements it |
| PlayerProperties.Step | Common/VideoPlayerView.swift:53-227 | any single call or continuation only appends to the event log and keeps the invariant |
| PlayerProperties.Run | Common/VideoPlayerView.swift:53-227 | every interleaving of calls and continuations from a valid state keeps the invariant, and the event log only grows |
| PlayerProperties.LastIntentWins | Common/VideoPlayerView.swift:53-64 | after any non-empty sequence of play and pause calls, `isPlaying` is the last call's intent whatever the item's readiness; after a final pause the transport is stopped |
| PlayerProperties.PauseIdempotent | Common/VideoPlayerView.swift:61-64 | pausing twice is pausing once |
| PlayerProperties.StepWithoutDelegate | Common/VideoPlayerView.swift:195-208 | without a delegate, no single step raises a notification or sets a delegate |
| PlayerProperties.NoDelegateNoNotifications | Common/VideoPlayerView.swift:195-208 | without a delegate, no run (that does not set one) logs a notification; only completions and layout invalidations appear |
| PlayerProperties.SecondSetVideoUrlDoesNotReload | Common/VideoPlayerView.swift:74-78 | setting the same URL twice starts no second load and answers (asset installed, no error) |
| PlayerProperties.RepeatWhileLoadingReportsOldAsset | Common/VideoPlayerView.swift:74-78 | repeating a URL whose load is still pending answers (true, no error) because the previous asset is still installed |
| PlayerProperties.NilUrlOutcome | Common/VideoPlayerView.swift:74-85 | setting nil answers (false, no error) on a view that never had a URL and (true, no error) after a URL was set |
| PlayerProperties.SameUrlAfterRemoval | Common/VideoPlayerView.swift:74-78 | after removal from the superview, setting the kept URL again reloads nothing and answers (false, no error) |
| PlayerProperties.StaleLoadCanWin | Common/VideoPlayerView.swift:86-103 | loads are never cancelled: two loads finishing out of order leave the older URL's asset installed under the newer URL |
| PlayerProperties.ResetRaisesReadyOnce | Common/VideoPlayerView.swift:66-71 | reset followed by its seek completion raises exactly one ready notification, independent of `finished`, and stays paused |
| PlayerProperties.PlayBeforeReadyNeverStarts | Common/VideoPlayerView.swift:53-59 | play before readiness then a transition into ready: the intent is set, the transport is not running, and a second play changes nothing |
| PlayerProperties.StatusChangeWithoutOldValue | Common/VideoPlayerView.swift:155-171 | with no old value, as the observation always delivers, a change into ready raises exactly one ready notification if an item is observed and leaves the transport as it was |
| PlayerProperties.StaleItemIgnored | Common/VideoPlayerView.swift:214-227 | after an item is replaced, its played-to-end and failed-to-end notifications change nothing |
| PlayerProperties.DetachedObserversAreSilent | Common/VideoPlayerView.swift:139-142 | after removal from the superview, status and size changes change nothing |
| PlayerProperties.LoadSucceeds | Common/VideoPlayerView.swift:87-103 | a successful load answers (true, no error) once, installs the asset, and its first ready transition raises one ready notification |
| PlayerProperties.LoadFails | Common/VideoPlayerView.swift:87-103 | a failed load with error E answers (false, E), notifies E if the delegate implements the error method, and installs no asset |
| PlayerProperties.ControllerDropsErrors | Common/VideoViewController.swift:30-38 | with the screen controller as delegate, a load error reaches only the completion |
| PlayerProperties.FinishedThenControllerReset | Common/VideoViewController.swift:36-38 | end of playback notifies finished; the controller's reset and its seek completion then give exactly one ready notification, paused |

## Left out

- AVFoundation itself (asset loading, transport, seeking, the player layer set up in `init(coder:)`): represented only by the player value, identities and the continuations the environment runs.
- The seek position and all timing and decoding: `reset()` is modelled as a pause plus one outstanding seek completion.
- Key-value observation and notification-center registration as mechanisms: modelled as the single `subscribed` field.
- `DispatchQueue.runInMain` (Common/Extensions.swift:56-62): every continuation is one atomic step on one thread.
- The delegate's own reaction inside a notification call: the delegate is opaque; the controller's reactions appear only as later steps in the scenario lemmas.
- Re-entrant completion callbacks: the load completion is called synchronously, before the error notification. A completion that calls back into the view runs inside that continuation, which one atomic step cannot express.
- `deinit`, which invalidates the observers when the view is freed: object lifetime is not modelled.
- `setNeedsDisplay` and the `layerClass` / `wantsUpdateLayer` overrides: drawing details with no state.
- The `options` dictionary of `setVideoUrl`: passed through to AVFoundation unchanged.
- The `videoUrl` property setter: it is `setVideoUrl` without a completion (`hasCompletion == false`).
- Size arithmetic: sizes are integer pairs compared only with zero, and the no-intrinsic-size value is an opaque sentinel.
- `PlayerState.OnPlayedToEnd`: the transport flag is left as the view last set it; the player stopping by itself at the end of the item belongs to AVFoundation.
- `PlayerState.OnStatusChanged`: the change's old value is an input, so the model allows more runs than the program has. The program's observation never reports an old value, so the ready-to-ready case never runs in it.
- The screen controller's `viewDidLoad` (it sets a bundled resource URL through the `videoUrl` setter), its play-button handler and enablement and the platform typealias, status-bar and focus overrides: user-interface glue.
