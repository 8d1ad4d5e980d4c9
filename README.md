# Sound of SpellForce player: playback session model

This Dafny project models the playback session controller inside the `App`
component of the Sound of SpellForce web player (`index.jsx`). It also models
the two pure helpers that the controller uses.

- **Session** (`session.dfy`): the class `Player` holds the component's signals:
  - the current streaming-engine instance `hls`;
  - the `playing` flag. It starts `false` while the fresh element is paused. It is set to the element's read-back `paused` value at every toggle, and only then. A track switch or the end of the media pauses the element without updating it, so it can read `false` while the element is paused;
  - the entry shown as playing, `currentlyPlaying`;
  - the preferred bitrate and the volume;
  - the audio element itself, as a `Sink` record.

  Its methods are the component's handlers: `playSong`, the manifest-parsed
  handler, `togglePlay`, `seek`, `changeVolume`, the bitrate selector,
  `nextSong`/`previousSong`, the space-bar key handler, and the element's
  `ended` and `timeupdate` listeners. The ghost set `engines` records every
  engine the player has created. The class invariant `Valid()` says that
  `hls` is the only one of them still alive.
- **Streaming** (`engine.dfy`): the streaming engine as the player uses it. It
  is an object with an alive flag, a loaded source, an attached flag, a
  registered manifest handler and a current quality level.
- **Levels** (`levels.dfy`): the quality level chosen when a manifest is
  parsed. It is the first level whose bitrate equals the preference, or else
  the last level.
- **Catalog** (`catalog.dfy`): playlist entries and the lookup of the adjacent
  entry by title.
- **Clock** (`clock.dfy`): the `m:ss` time display. It is computed as the
  player computes it, on non-negative reals. It is proved equal to the display
  of the whole seconds, and that display is proved to be in one-to-one
  correspondence with the well-formed `m:ss` strings.
- **Search** (`search.dfy`) and **Wrappers** (`wrappers.dfy`): `findIndex` and
  an option type.

The model does what the code does, including where a design for such a
player might be expected to do more:

- Neither the seek position nor the volume is clamped.
- No token guards against a late "manifest parsed" event. The handler reads
  the current `hls`, not the instance that registered it. In the model an
  engine fires the event only while it holds the handler. Destroying an engine
  drops its handler, and every older engine has been destroyed.
- `currentlyPlaying` changes only in the manifest handler. So "an engine
  exists iff an entry is selected" holds in one direction only:
  `currentlyPlaying` set implies `hls` set. Between `playSong` and its
  manifest, an engine exists while the previous entry (or none) is shown.
- `nextSong` plays the first catalog entry when the current title is not in
  the catalog. `previousSong` then does nothing.
- `nextSong` and `previousSong` with nothing selected throw on a non-empty
  catalog, because the lookup reads the title of `undefined`. On an empty
  catalog `findIndex` never runs its callback, and the handlers return at the
  empty slot. Either way nothing changes, and the model reports `NoSelection`.
- Attaching a new source makes the element reload, which leaves it paused.
  The manifest handler's toggle therefore starts a newly selected entry,
  whether it was chosen while playing, while paused, or at the end of the
  previous one, unless playback was toggled while its manifest was pending:
  then the element is already playing and the handler's toggle pauses it.
- The space bar toggles playback whatever element has focus.

## Model

| member | source | states |
|---|---|---|
| Search.FindIndex | index.jsx:139 | `findIndex`: -1 exactly when no element matches; otherwise a matching index with no match before it |
| Levels.ChooseLevel | index.jsx:139-140 | if some level has exactly the preferred bitrate, the result is the first such index; otherwise it is `|levels| - 1` (so -1 for no levels) |
| Levels.FallbackIsHighest | index.jsx:140 | when levels are listed in ascending bitrate and none matches, the fallback level has the highest bitrate |
| Catalog.IndexOfTitle | index.jsx:113 | the index of the first entry with the given title, or -1 when no entry has it |
| Catalog.NextTarget | index.jsx:112-117 | for the first entry at `k` with the current title: entry `k+1` if it exists, else nothing; a title that is not found gives the first entry (nothing for an empty catalog) |
| Catalog.PreviousTarget | index.jsx:105-110 | for the first entry at `k` with the current title: entry `k-1` when `k >= 1`, else nothing; a title that is not found gives nothing |
| Catalog.NextThenPrevious | index.jsx:105-117 | with distinct titles, going back from the entry after `e` yields `e` again |
| Catalog.PreviousThenNext | index.jsx:105-117 | with distinct titles, going forward from the entry before `e` yields `e` again |
| Clock.NatToString | index.jsx:15 | `toString` of a whole number is a canonical decimal numeral (digits, no leading zero) denoting that number |
| Clock.CanonicalRoundTrip | index.jsx:15 | every canonical numeral is what `toString` prints for its value |
| Clock.PaddedSeconds | index.jsx:15 | `("0" + toString(v)).slice(-2)` is exactly two digits denoting `v`, for `v < 100` |
| Clock.FormatSecondsFields | index.jsx:14-16 | the display of `t` seconds is the unpadded decimal of `t div 60`, a colon, and two digits denoting `t mod 60` |
| Clock.FormatThenParse | index.jsx:14-16 | reading a display back gives the seconds it was made from |
| Clock.ParseThenFormat | index.jsx:14-16 | every well-formed `m:ss` string with seconds below 60 is the display of the seconds it denotes |
| Clock.FormatTime | index.jsx:14-16 | the truncating-division and remainder computation on a non-negative time equals the display of its whole seconds |
| Wrappers.Option.GetOr | index.jsx:51 | the fallback when storage holds no volume: the stored value when there is one, the default otherwise |
| Clock.SliceLast2 | index.jsx:15 | `slice(-2)` keeps two characters, or the whole string when it is shorter |
| Clock.SliceLast2Suffix | index.jsx:15 | what `slice(-2)` keeps is the end of the string |
| Clock.FormatSeconds | index.jsx:14-16 | the display of whole seconds has at least four characters, with the colon third from the end |
| Clock.Trunc | index.jsx:15 | `Math.trunc` of a non-negative number is the whole number at most it and more than it minus one |
| Clock.MinuteRemainder | index.jsx:15 | `x % 60` on a non-negative `x` lies in [0, 60), and its whole part is the whole seconds of `x` modulo 60 |
| Streaming.StreamUrl | index.jsx:120 | the locator is the server origin followed by the entry's stream path |
| Streaming.SameLocator | index.jsx:120 | two entries get the same locator exactly when their stream paths are equal |
| Session.NextStep | index.jsx:112-117 | nothing selected is reported as such; otherwise the entry at the title's `findIndex` + 1 is played when that slot exists, and the handler stops otherwise |
| Session.PreviousStep | index.jsx:105-110 | nothing selected is reported as such; otherwise the entry at the title's `findIndex` - 1 is played when that slot exists, and the handler stops otherwise |
| Session.Reloaded | index.jsx:123-132 | after a new source is attached, the element is paused, at position 0, with unknown duration, and keeps its volume |
| Session.TimeDisplay | index.jsx:67-74 | the display record holds the position and duration and their `m:ss` displays |
| Streaming.Engine.constructor | index.jsx:126 | a new engine is alive, has no source, is unattached, has no handler, and lets the engine choose its level (-1) |
| Streaming.Engine.LoadSource | index.jsx:129 | the engine's source becomes the given locator; nothing else changes |
| Streaming.Engine.AttachMedia | index.jsx:132 | the engine becomes attached to the element; nothing else changes |
| Streaming.Engine.OnManifestParsed | index.jsx:135 | the engine's manifest handler is the one registered for the entry; nothing else changes |
| Streaming.Engine.Destroy | index.jsx:123 | the engine is no longer alive, is detached, and has no handler |
| Session.Player.constructor | index.jsx:35-53 | initial signals: no engine, nothing playing, bitrate 128000, the stored volume or 0.25 on both signal and element, a paused element at position 0 with unknown duration, the time display at -1 |
| Session.Player.AtMostOneLive | index.jsx:119-126 | the live engines are exactly `{hls}`, or none before the first selection: at most one is live |
| Session.Player.PlaySong | index.jsx:119-135 | every earlier engine is destroyed and keeps its source and level; the engine destroyed here is detached and has no handler; other old engines are untouched; a fresh engine is the only live one; it is loaded from the server origin plus the entry's stream path, attached and holds the entry's handler; the element is reloaded; the shown entry, flags and settings are unchanged |
| Session.Player.ManifestParsed | index.jsx:135-144 | only an engine still holding the handler can fire it, which under the invariant is the current one; the level becomes the choice for the current preference; the element's paused flag flips once; `playing` reads it back; the shown entry becomes the handler's entry; the engine is unchanged otherwise |
| Session.Player.TogglePlay | index.jsx:84-92 | without an engine nothing changes; otherwise the paused flag flips, `playing` equals the new paused flag, and nothing else changes |
| Session.Player.Seek | index.jsx:77-82 | without an engine, or while the duration is unknown (the NaN write throws), nothing changes; otherwise only the element's position changes, to the given fraction of the duration, unclamped |
| Session.Player.MediaAdvanced | index.jsx:67-74 | the element's own progress: only its position and known duration change, which is what the `timeupdate` listener then reads |
| Session.Player.ChangeVolume | index.jsx:94-99 | the same value goes to the signal, the element and storage; nothing else changes |
| Session.Player.SelectBitrate | index.jsx:212 | only the preferred bitrate changes |
| Session.Player.NextSong | index.jsx:112-117 | with nothing selected, or no next entry, nothing changes; otherwise `playSong` runs on the next entry, and the old engines end as `playSong` leaves them |
| Session.Player.PreviousSong | index.jsx:105-110 | with nothing selected, or no previous entry, nothing changes; otherwise `playSong` runs on the previous entry, and the old engines end as `playSong` leaves them |
| Session.Player.OnKeyDown | index.jsx:55-63 | key code 32 toggles playback and returns false; any other key returns true and changes nothing |
| Session.Player.OnEnded | index.jsx:66 | the element has paused at the end; then the event behaves as `nextSong`: a switch to the next entry with the old engines as `playSong` leaves them, or only the paused flag set when there is none |
| Session.Player.OnTimeUpdate | index.jsx:67-74 | only the time display changes, to the position and duration with their `m:ss` displays |
| Session.SelectThenManifestStarts | index.jsx:119-143 | selecting an entry and letting its manifest arrive leaves the element playing from position 0, `playing` false, the entry shown, and the level chosen for the preference |
| Session.EndedThenManifestStartsNext | index.jsx:66-143 | when an entry ends and a next entry exists, the next entry is shown and plays from position 0 once its manifest arrives |
| Session.ProgressThenTimeUpdate | index.jsx:67-74 | after the element reaches position `t` of a `d`-second media, the time display holds `t` and `d` with the `m:ss` displays of their whole seconds, and nothing else changed |
| Session.LastEntryEnds | index.jsx:66-117 | when the last entry ends, the handler stops at the empty slot: the element stays paused, the engine and shown entry stay, and `playing` keeps reading `false` |
| Session.NextThenPreviousReselects | index.jsx:105-144 | with distinct titles, next, its manifest, previous and its manifest show the entry shown before, with exactly one live engine |

## Left out

- Rendering: the JSX markup, icons, styles and the waveform image's clip-path percentage are user interface only.
- Fetching the catalog and the `Hls.isSupported()` startup branch: these are network and browser capability checks. The model is given the catalog already loaded and sorted.
- Sorting the catalog with `localeCompare`: locale-aware collation is a library call. The catalog is taken as given. Before the catalog has loaded, the handlers throw; the model has no such window.
- The volume's storage as a string and its `parseFloat`: storage holds the number itself. An unparsable stored value (NaN) is not modelled.
- The seek fraction's pixel arithmetic and floating point: `Seek` receives the computed fraction of the waveform's width.
- The element's decoding and timing: its progress arrives through `MediaAdvanced`, which sets the position and the duration once metadata is known. The model does not tie it to the paused flag or to the media's real length.
- The engine's own work: the network, decoding, level switching, and the asynchronous timing of its events. The model does not enforce that the manifest event fires once per load.
- The element's load algorithm is reduced to its effect on the fields the player reads: paused, position 0, unknown duration. Its events and network state are not modelled. At the end of the media, the element's pausing is modelled, but its position is not moved to the end.
- A rejected `play()` promise (for example under an autoplay policy): the toggle always flips the flag.
- Console logging, the unused waveform-player import, and the unused `changeBitrate` handler.
- Clock.FormatTime: does not model negative, NaN or infinite times, the rounding of floating-point division by 60, or the exponent notation that `toString` uses from 10^21 on.
- Session.Player.OnTimeUpdate: requires a known, non-negative duration, so the display of an unknown (NaN) duration is not modelled.
- Session.Player.ChangeVolume: requires a volume in [0, 1], as the range input delivers; the element rejects anything else.
