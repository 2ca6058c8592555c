# shower-media-control, modelled in Dafny

`MediaControl` is a plugin for the shower presentation framework. It keeps a
first-in-first-out queue of media elements (`video`, `audio` by default): the
media queued by activations in slide mode, including any left unplayed from
earlier slides. It reacts to two events of the host's player:

- `activate` (a slide becomes current): in slide mode, every media element
  of the new slide is rewound to position 0 and appended to the queue in
  document order; a slide without media empties the queue. Outside slide mode
  nothing happens.
- `next` (the user asks to advance): in slide mode with media queued, the
  navigation event is cancelled, the front element leaves the queue and
  `play` is called on it. Otherwise the event is left alone and the slide
  advances.

At construction the plugin joins the configured element names with `,` into
the selector it queries slides with (`video,audio` by default) and starts with
an empty queue. `destroy` releases the queue and the host.

## Layout

- `wrappers.dfy`: module `Wrappers`, the `Option` datatype for omitted arguments.
- `selector.dfy`: module `Selector`, the plugin options, `Join` (JavaScript's
  `Array.prototype.join`) with its inverse `Split`, and the selector string.
- `media_queue.dfy`: module `MediaQueue`, the behaviour on plain values. A
  `State` holds the queue, the `currentTime` of every media element and the
  log of `play` calls. `Activate` and `Next` are the two handlers, and `Run`
  is a sequence of `next` events. The lemmas here state what a run of events
  does.
- `media_control.dfy`: module `ShowerMediaControl`, the imperative model.
  Class `Shower` is the host: its slide-mode flag, the current slide's
  matching media in document order, the media positions and the play log.
  Class `MediaControl` is the plugin. Its queue is a `seq` field that the
  handlers append to in a loop, reassign and shift. Each handler is proved
  to change the state exactly as the function of `MediaQueue` says.

Where the source and its longer design description disagree, the model
follows the code of `shower-media-control.js`. The code appends to the queue
on activation instead of replacing it. It has no autoplay handling and no
pause-and-rewind sweep on leaving slide mode. Its selector is the plain
comma-join of the element names, with no restriction to direct children of a
slide.

## Model

| member | source | states |
|---|---|---|
| `Selector.ConfiguredSelectors` | shower-media-control.js:24-25 | an absent options object or absent `selectors` yields the default `["video", "audio"]`; otherwise the given names, even an empty list (an empty array is truthy in JavaScript) |
| `Selector.MediaSelector` | shower-media-control.js:24-26 | the selector is `"video,audio"` when no names are configured and `""` for an empty list; for any non-empty list, splitting it at commas gives the pieces of every name in order (the names themselves when they hold no comma), which with `JoinSplit` fixes the string |
| `Selector.DefaultSelectorString` | shower-media-control.js:12 | the default names join to `"video,audio"` |
| `Selector.SplitConcat` | shower-media-control.js:26 | splitting `a,b` gives the pieces of `a` followed by the pieces of `b`, for any strings |
| `Selector.SplitJoinAll` | shower-media-control.js:26 | splitting the join of any non-empty list gives the pieces of every name in turn |
| `Selector.SplitAllPieces` | shower-media-control.js:26 | a list of names without separators is its own list of pieces |
| `Selector.JoinedPieces` | shower-media-control.js:26 | both facts above for any list: the pieces of a join in general, and the names themselves when none holds a separator |
| `Selector.SplitJoin` | shower-media-control.js:26 | joining a non-empty list of separator-free names and splitting the result gives the list back |
| `Selector.JoinSplit` | shower-media-control.js:26 | splitting any string and joining the pieces gives the string back, so the join loses nothing |
| `ShowerMediaControl.MediaControl.constructor` | shower-media-control.js:23-30 | the stored selector is `MediaSelector(options)`, the queue is empty and the host is the one given |
| `ShowerMediaControl.MediaControl.Destroy` | shower-media-control.js:33-37 | afterwards the queue is released (empty) and the host reference is null, so no handler may be called |
| `ShowerMediaControl.MediaControl.OnSlideActivate` | shower-media-control.js:57-76 | the queue and the host's media positions afterwards are exactly `Activate` of the state before, given the host's slide mode and the slide's media; the loop keeps that the queue is the old queue plus the media rewound so far |
| `ShowerMediaControl.MediaControl.OnNext` | shower-media-control.js:78-86 | the state afterwards, and whether the event was cancelled, are exactly `Next` of the state before in the host's mode |
| `ShowerMediaControl.MediaControl.PlayNextMedia` | shower-media-control.js:88-91 | the front of the queue is removed and appended to the play log; positions are unchanged |
| `MediaQueue.Rewound` | shower-media-control.js:65-68 | every element of the slide has position 0, every other element keeps its position, and no element besides the slide's gains a position |
| `MediaQueue.Activate` | shower-media-control.js:57-76 | outside slide mode nothing changes; in slide mode a slide with media makes the queue the old queue followed by the slide's media in document order and sets each of them to 0; a slide without media empties the queue; no other element's position and no play is touched |
| `MediaQueue.PlayFront` | shower-media-control.js:88-91 | exactly one element is added to the play log, and that element followed by the new queue is the old queue |
| `MediaQueue.Next` | shower-media-control.js:78-86 | the event is cancelled if and only if in slide mode with a non-empty queue; if cancelled the front is played as `PlayFront` says; otherwise the state is unchanged |
| `MediaQueue.NextConserves` | shower-media-control.js:78-91 | a `next` event loses no element: the queue and the play log together hold the same elements before and after |
| `MediaQueue.Run` | shower-media-control.js:78-86 | a run of `k` events records one cancellation flag per event |
| `MediaQueue.Drain` | shower-media-control.js:78-91 | with at least `k` elements queued, `k` events in slide mode are all cancelled, play the first `k` queued elements in order and leave the rest queued |
| `MediaQueue.DrainAll` | shower-media-control.js:78-91 | as many events as the queue is long are all cancelled and play the whole queue in order, leaving it empty |
| `MediaQueue.DrainThenPass` | shower-media-control.js:78-91 | one event more than the queue is long: all but the last are cancelled, the last is not, and the whole queue has been played |
| `MediaQueue.IdleRun` | shower-media-control.js:80-85 | with an empty queue, or outside slide mode, no event is cancelled and the state does not change |
| `MediaQueue.RunAppend` | shower-media-control.js:78-86 | in either mode, `j` events followed by `k` more are the same as `j + k` events, with the cancellation flags concatenated |
| `MediaQueue.SequentialConsumption` | shower-media-control.js:4-6 | after activating, in slide mode with nothing queued, a slide with media m1..mk, the queue is m1..mk; the next k events are each cancelled and play m1..mk in order, and event k+1 is not cancelled |
| `MediaQueue.ActivateAppends` | shower-media-control.js:64-69 | activation in slide mode keeps what is already queued: the new queue is as long as the old queue and the slide's media together, and playing it out plays the elements left over from an earlier slide before the new slide's media |
| `MediaQueue.ResetOnEmptySlide` | shower-media-control.js:71-74 | after activating a slide without media in slide mode the queue is empty whatever was queued before, and every later event proceeds and plays nothing |

## Left out

- Module and plugin registration (`shower.modules.define`, `provide`, `sh.plugins.add`, lines 8-10 and 94-99): host registry plumbing with no behaviour of the plugin.
- Listener setup and release (`_setupListeners`, `_clearListeners`, lines 39-55): calls into the host's event bus, which is not part of this model. The host is assumed to call the handlers one at a time. Line 48 assigns `_playerListeners` a second time, so the group holding the `activate` listener is never released by `destroy`; the model does not capture listener bookkeeping, so this is not modelled.
- `ShowerMediaControl.MediaControl.Destroy`: the source sets the queue to `null`; the model sets it to the empty sequence and nulls the host, and every handler requires a non-null host, which is where the source would throw. A second `destroy` is allowed, as in the source.
- DOM querying (`getCurrentSlide`, `layout.getElement`, `querySelectorAll`, line 61): the current slide's matching media are a given field of the host, in document order. The model does not relate that list to the selector string.
- The query's error path: with an empty selector (`selectors: []`) or one that is not valid CSS, `querySelectorAll` throws on every `activate`, even outside slide mode, because line 61 runs before the slide-mode test at line 63. `OnSlideActivate` does not model this throw; it goes ahead with the host's list of media.
- Media elements are identities (`MediaId`) rather than objects; their `currentTime` is a map in the host and `play()` is an entry in the host's play log. Real playback, its progress and its failures are not modelled. Positions are real numbers, not floating point.
- `Selector.ConfiguredSelectors`: JavaScript's `||` falls back to the default for any falsy value; the model only distinguishes absent `selectors` from a list of names. A `selectors` value of another type (a string, say) is not modelled.
- Autoplay and leaving slide mode: the source file has neither, so neither is modelled.
