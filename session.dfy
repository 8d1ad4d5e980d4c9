/**
 * The playback session controller of the player component: the engine
 * instance, the playing flag, the entry shown as playing, the preferred
 * bitrate and the volume, and the handlers that change them.
 */
module Session {
  import opened Wrappers
  import opened Catalog
  import opened Levels
  import opened Clock
  import opened Streaming

  /** The element's duration: unknown (NaN) until the media's metadata has arrived. */
  datatype Duration = Unknown | Known(seconds: real)

  /** The audio element, as far as the player reads and writes it. */
  datatype Sink = Sink(paused: bool, currentTime: real, duration: Duration, volume: real)

  /** The record the `timeupdate` listener keeps for the time display. */
  datatype PlaybackTime = PlaybackTime(current: real, currentFormatted: string, duration: real, durationFormatted: string)

  /** What a next or previous request did. */
  datatype NavOutcome =
    | Played(entry: Entry)  // `playSong` was called with this entry
    | AtEdge                // there is no adjacent entry: the handler returned early
    | NoSelection           // nothing is selected yet: reading its title throws, nothing changes

  const SpaceKeyCode := 32
  const DefaultVolume := 0.25
  const DefaultBitrate := 128000

  /**
   * What `nextSong` does for the shown entry: the position after the title's
   * `findIndex` result is looked up, and an empty slot ends the handler.
   */
  function NextStep(catalog: seq<Entry>, current: Option<Entry>): (r: NavOutcome)
    ensures current.None? <==> r.NoSelection?
    ensures current.Some? ==>
      var i := IndexOfTitle(catalog, current.value.title) + 1;
      (r.Played? <==> 0 <= i < |catalog|) && (r.Played? ==> r.entry == catalog[i])
  {
    match current
    case None => NoSelection
    case Some(e) => if NextTarget(catalog, e).Some? then Played(NextTarget(catalog, e).value) else AtEdge
  }

  /** What `previousSong` does for the shown entry: the position before the title's `findIndex` result. */
  function PreviousStep(catalog: seq<Entry>, current: Option<Entry>): (r: NavOutcome)
    ensures current.None? <==> r.NoSelection?
    ensures current.Some? ==>
      var i := IndexOfTitle(catalog, current.value.title) - 1;
      (r.Played? <==> 0 <= i < |catalog|) && (r.Played? ==> r.entry == catalog[i])
  {
    match current
    case None => NoSelection
    case Some(e) => if PreviousTarget(catalog, e).Some? then Played(PreviousTarget(catalog, e).value) else AtEdge
  }

  /**
   * The element after a new source is attached: its load algorithm pauses
   * it, rewinds it and forgets the duration; the volume stays.
   */
  function Reloaded(audio: Sink): (r: Sink)
    ensures r.paused && r.currentTime == 0.0 && r.duration.Unknown?
    ensures r.volume == audio.volume
  {
    audio.(paused := true, currentTime := 0.0, duration := Unknown)
  }

  /** The display record for a position and a duration, both in seconds. */
  function TimeDisplay(current: real, duration: real): (r: PlaybackTime)
    requires current >= 0.0 && duration >= 0.0
    ensures r.current == current && r.duration == duration
    ensures r.currentFormatted == FormatSeconds(current.Floor)
    ensures r.durationFormatted == FormatSeconds(duration.Floor)
  {
    PlaybackTime(current, FormatTime(current), duration, FormatTime(duration))
  }

  class Player {
    /** The catalog, already sorted by title. */
    const catalog: seq<Entry>
    /** The current engine instance, or null before the first selection. */
    var hls: Engine?
    /** Set to the element's read-back `paused` flag after every toggle. */
    var playing: bool
    /** The entry shown as playing; set only when a manifest has been parsed. */
    var currentlyPlaying: Option<Entry>
    var selectedBitrate: int
    var volume: real
    /** The volume kept in browser storage. */
    var storedVolume: Option<real>
    var playbackTime: PlaybackTime
    var audio: Sink
    /** Every engine instance this player has created. */
    ghost var engines: set<Engine>

    ghost predicate Valid()
      reads this, engines
    {
      && (hls != null ==>
            hls in engines && hls.alive && hls.attached && hls.source.Some? && hls.manifestHandler.Some?)
      && (forall e :: e in engines && e.alive ==> e == hls)
      && (forall e :: e in engines && !e.alive ==> e.manifestHandler.None?)
      && (currentlyPlaying.Some? ==> hls != null)
    }

    /** The engine instances not yet destroyed. */
    ghost function LiveEngines(): set<Engine>
      reads this, engines
    {
      set e | e in engines && e.alive
    }

    /** The current engine is live, loaded with the entry's stream, attached, and waits to report its levels. */
    ghost predicate LoadedFor(entry: Entry)
      reads this, hls
    {
      hls != null && hls.alive && hls.source == Some(StreamUrl(entry)) && hls.attached &&
      hls.manifestHandler == Some(entry) && hls.currentLevel == -1
    }

    /** Nothing but the element and the playing flag changed. */
    twostate predicate SessionKept()
      reads this
    {
      hls == old(hls) && engines == old(engines) && currentlyPlaying == old(currentlyPlaying) &&
      selectedBitrate == old(selectedBitrate) && volume == old(volume) &&
      storedVolume == old(storedVolume) && playbackTime == old(playbackTime)
    }

    /** The element's paused flag flipped and `playing` reads it back; nothing else changed. */
    twostate predicate TransportToggled()
      reads this
    {
      SessionKept() && audio == old(audio).(paused := !old(audio.paused)) && playing == audio.paused
    }

    /**
     * A fresh engine replaced every earlier one and is loading `entry`; the
     * element was reloaded; the rest of the session is as it was.
     */
    twostate predicate SwitchedTo(entry: Entry)
      reads this, engines
    {
      hls != null && fresh(hls) && engines == old(engines) + {hls} && LoadedFor(entry) &&
      LiveEngines() == {hls} &&
      currentlyPlaying == old(currentlyPlaying) && playing == old(playing) && audio == Reloaded(old(audio)) &&
      selectedBitrate == old(selectedBitrate) && volume == old(volume) &&
      storedVolume == old(storedVolume) && playbackTime == old(playbackTime)
    }

    /** The component as mounted: the signals' initial values, and the volume read from storage. */
    constructor (catalog: seq<Entry>, stored: Option<real>)
      ensures Valid() && hls == null && engines == {} && this.catalog == catalog
      ensures currentlyPlaying == None && !playing && selectedBitrate == DefaultBitrate
      ensures volume == stored.GetOr(DefaultVolume) && storedVolume == stored
      ensures audio == Sink(true, 0.0, Unknown, volume)
      ensures playbackTime == PlaybackTime(-1.0, "", -1.0, "")
    {
      this.catalog := catalog;
      hls := null;
      playing := false;
      currentlyPlaying := None;
      selectedBitrate := DefaultBitrate;
      var v := stored.GetOr(DefaultVolume);
      volume := v;
      storedVolume := stored;
      playbackTime := PlaybackTime(-1.0, "", -1.0, "");
      audio := Sink(true, 0.0, Unknown, v);
      engines := {};
    }

    /** At every stable point at most one engine instance is live, and it is `hls`. */
    lemma AtMostOneLive()
      requires Valid()
      ensures LiveEngines() == if hls == null then {} else {hls}
      ensures |LiveEngines()| <= 1
    {
    }

    /** `playSong`: release the current engine, then create, load and attach a new one. */
    method PlaySong(entry: Entry)
      requires Valid()
      modifies this, engines
      ensures Valid() && SwitchedTo(entry)
      ensures forall e :: e in old(engines) ==> !e.alive
      ensures old(hls) != null ==>
        !old(hls).attached && old(hls).manifestHandler == None &&
        old(hls).source == old(hls.source) && old(hls).currentLevel == old(hls.currentLevel)
      ensures forall e :: e in old(engines) && e != old(hls) ==> unchanged(e)
    {
      var url := StreamUrl(entry);
      if hls != null {
        hls.Destroy();
      }
      assert LiveEngines() == {};
      var engine := new Engine();
      hls := engine;
      engines := engines + {engine};
      engine.LoadSource(url);
      engine.AttachMedia();
      engine.OnManifestParsed(entry);
      audio := Reloaded(audio);
    }

    /**
     * The "manifest parsed" handler registered by `PlaySong`, run when an
     * engine `sender` that still holds the handler reports its quality levels:
     * choose a level, toggle playback, and show the entry the handler was
     * registered for. A destroyed engine has dropped its handler, so only the
     * current engine can get here.
     */
    method ManifestParsed(sender: Engine, levels: seq<QualityLevel>)
      requires Valid() && sender in engines && sender.manifestHandler.Some?
      modifies this, sender
      ensures Valid()
      ensures hls == sender && engines == old(engines)
      ensures sender.currentLevel == ChooseLevel(levels, selectedBitrate)
      ensures sender.alive && sender.attached
      ensures sender.source == old(sender.source) && sender.manifestHandler == old(sender.manifestHandler)
      ensures audio == old(audio).(paused := !old(audio.paused)) && playing == audio.paused
      ensures currentlyPlaying == old(sender.manifestHandler)
      ensures selectedBitrate == old(selectedBitrate) && volume == old(volume)
      ensures storedVolume == old(storedVolume) && playbackTime == old(playbackTime)
    {
      var entry := sender.manifestHandler.value;
      hls.currentLevel := ChooseLevel(levels, selectedBitrate);
      TogglePlay();
      currentlyPlaying := Some(entry);
    }

    /** `togglePlay`: without an engine nothing happens; otherwise play or pause, then read `paused` back. */
    method TogglePlay()
      requires Valid()
      modifies this
      ensures Valid()
      ensures old(hls) == null ==> unchanged(this)
      ensures old(hls) != null ==> TransportToggled()
    {
      if hls == null {
        return;
      }
      if audio.paused {
        audio := audio.(paused := false);
      } else {
        audio := audio.(paused := true);
      }
      playing := audio.paused;
    }

    /**
     * `seek`: without an engine nothing happens; otherwise the element's
     * position becomes `fraction` (where the click fell along the waveform)
     * of the duration. While the duration is unknown the product is NaN, the
     * element refuses the write with an exception, and nothing changes.
     */
    method Seek(fraction: real)
      requires Valid()
      modifies this
      ensures Valid()
      ensures old(hls) == null || old(audio.duration).Unknown? ==> unchanged(this)
      ensures old(hls) != null && old(audio.duration).Known? ==>
        SessionKept() && playing == old(playing) &&
        audio == old(audio).(currentTime := old(audio.duration).seconds * fraction)
    {
      if hls == null {
        return;
      }
      if audio.duration.Unknown? {
        return;
      }
      audio := audio.(currentTime := audio.duration.seconds * fraction);
    }

    /**
     * The element's own progress while it plays: its metadata gives the
     * duration `d`, and its position reaches `t`. The player's state is
     * untouched; only the element changes.
     */
    method MediaAdvanced(t: real, d: real)
      requires Valid()
      requires 0.0 <= t && 0.0 <= d
      modifies this
      ensures Valid() && SessionKept() && playing == old(playing)
      ensures audio == old(audio).(currentTime := t, duration := Known(d))
    {
      audio := audio.(currentTime := t, duration := Known(d));
    }

    /** `changeVolume`: the same value goes to the signal, the element and storage. */
    method ChangeVolume(v: real)
      requires Valid()
      requires 0.0 <= v <= 1.0  // the range input's bounds; the element refuses anything else
      modifies this
      ensures Valid()
      ensures volume == v && storedVolume == Some(v) && audio == old(audio).(volume := v)
      ensures hls == old(hls) && engines == old(engines) && playing == old(playing)
      ensures currentlyPlaying == old(currentlyPlaying) && selectedBitrate == old(selectedBitrate)
      ensures playbackTime == old(playbackTime)
    {
      audio := audio.(volume := v);
      volume := v;
      storedVolume := Some(v);
    }

    /** The bitrate selector: the preference is stored and used at the next manifest. */
    method SelectBitrate(bitrate: int)
      requires Valid()
      modifies this
      ensures Valid()
      ensures selectedBitrate == bitrate
      ensures hls == old(hls) && engines == old(engines) && playing == old(playing) && audio == old(audio)
      ensures currentlyPlaying == old(currentlyPlaying) && volume == old(volume)
      ensures storedVolume == old(storedVolume) && playbackTime == old(playbackTime)
    {
      selectedBitrate := bitrate;
    }

    /** `nextSong`: play the entry after the current one, if there is one. */
    method NextSong() returns (outcome: NavOutcome)
      requires Valid()
      modifies this, engines
      ensures Valid()
      ensures outcome == NextStep(catalog, old(currentlyPlaying))
      ensures outcome.Played? ==> SwitchedTo(outcome.entry)
      ensures outcome.Played? ==> old(hls) != null ==>
        !old(hls).attached && old(hls).manifestHandler == None &&
        old(hls).source == old(hls.source) && old(hls).currentLevel == old(hls.currentLevel)
      ensures outcome.Played? ==> forall e :: e in old(engines) && e != old(hls) ==> unchanged(e)
      ensures !outcome.Played? ==> unchanged(this) && unchanged(engines)
    {
      if currentlyPlaying.None? {
        return NoSelection;
      }
      var target := NextTarget(catalog, currentlyPlaying.value);
      if target.None? {
        return AtEdge;
      }
      PlaySong(target.value);
      outcome := Played(target.value);
    }

    /** `previousSong`: play the entry before the current one, if there is one. */
    method PreviousSong() returns (outcome: NavOutcome)
      requires Valid()
      modifies this, engines
      ensures Valid()
      ensures outcome == PreviousStep(catalog, old(currentlyPlaying))
      ensures outcome.Played? ==> SwitchedTo(outcome.entry)
      ensures outcome.Played? ==> old(hls) != null ==>
        !old(hls).attached && old(hls).manifestHandler == None &&
        old(hls).source == old(hls.source) && old(hls).currentLevel == old(hls.currentLevel)
      ensures outcome.Played? ==> forall e :: e in old(engines) && e != old(hls) ==> unchanged(e)
      ensures !outcome.Played? ==> unchanged(this) && unchanged(engines)
    {
      if currentlyPlaying.None? {
        return NoSelection;
      }
      var target := PreviousTarget(catalog, currentlyPlaying.value);
      if target.None? {
        return AtEdge;
      }
      PlaySong(target.value);
      outcome := Played(target.value);
    }

    /**
     * The window's key handler: the space bar (key code 32) toggles playback
     * and cancels the default action; every other key passes through.
     */
    method OnKeyDown(keyCode: int) returns (allowDefault: bool)
      requires Valid()
      modifies this
      ensures Valid()
      ensures allowDefault <==> keyCode != SpaceKeyCode
      ensures keyCode != SpaceKeyCode || old(hls) == null ==> unchanged(this)
      ensures keyCode == SpaceKeyCode && old(hls) != null ==> TransportToggled()
    {
      if keyCode != SpaceKeyCode {
        return true;
      }
      TogglePlay();
      return false;
    }

    /**
     * The element's `ended` listener moves on to the next entry. The element
     * has paused itself at the end of the media before the event fires.
     */
    method OnEnded() returns (outcome: NavOutcome)
      requires Valid()
      modifies this, engines
      ensures Valid()
      ensures outcome == NextStep(catalog, old(currentlyPlaying))
      ensures outcome.Played? ==> SwitchedTo(outcome.entry)
      ensures outcome.Played? ==> old(hls) != null ==>
        !old(hls).attached && old(hls).manifestHandler == None &&
        old(hls).source == old(hls.source) && old(hls).currentLevel == old(hls.currentLevel)
      ensures outcome.Played? ==> forall e :: e in old(engines) && e != old(hls) ==> unchanged(e)
      ensures !outcome.Played? ==>
        SessionKept() && playing == old(playing) && audio == old(audio).(paused := true) && unchanged(engines)
    {
      audio := audio.(paused := true);
      outcome := NextSong();
    }

    /** The element's `timeupdate` listener refreshes the time display. */
    method OnTimeUpdate()
      requires Valid()
      requires audio.currentTime >= 0.0 && audio.duration.Known? && audio.duration.seconds >= 0.0
      modifies this
      ensures Valid()
      ensures hls == old(hls) && engines == old(engines) && playing == old(playing) && audio == old(audio)
      ensures currentlyPlaying == old(currentlyPlaying) && selectedBitrate == old(selectedBitrate)
      ensures volume == old(volume) && storedVolume == old(storedVolume)
      ensures playbackTime == TimeDisplay(audio.currentTime, audio.duration.seconds)
    {
      playbackTime := TimeDisplay(audio.currentTime, audio.duration.seconds);
    }
  }

  /**
   * Selecting an entry and letting its manifest arrive starts playback,
   * whatever the element was doing before: the new source left it paused and
   * the handler's toggle plays it. `playing` then reads back `false`.
   */
  method SelectThenManifestStarts(p: Player, entry: Entry, levels: seq<QualityLevel>)
    requires p.Valid()
    modifies p, p.engines
    ensures p.Valid() && p.currentlyPlaying == Some(entry)
    ensures !p.audio.paused && p.audio.currentTime == 0.0 && !p.playing
    ensures p.hls != null && p.hls.currentLevel == ChooseLevel(levels, p.selectedBitrate)
  {
    p.PlaySong(entry);
    p.ManifestParsed(p.hls, levels);
  }

  /**
   * When an entry plays to its end and there is a next entry, the next entry
   * starts playing from the beginning once its manifest arrives.
   */
  method EndedThenManifestStartsNext(p: Player, levels: seq<QualityLevel>)
    requires p.Valid() && p.currentlyPlaying.Some?
    requires NextTarget(p.catalog, p.currentlyPlaying.value).Some?
    modifies p, p.engines
    ensures p.Valid() && p.currentlyPlaying == old(NextTarget(p.catalog, p.currentlyPlaying.value))
    ensures !p.audio.paused && p.audio.currentTime == 0.0 && !p.playing
  {
    var outcome := p.OnEnded();
    p.ManifestParsed(p.hls, levels);
  }

  /**
   * Once the element has reached position `t` of a `d`-second media, its
   * `timeupdate` event shows both, each with its `m:ss` display, and
   * changes nothing else.
   */
  method ProgressThenTimeUpdate(p: Player, t: real, d: real)
    requires p.Valid() && 0.0 <= t && 0.0 <= d
    modifies p
    ensures p.Valid() && p.playbackTime == TimeDisplay(t, d)
    ensures p.playbackTime.currentFormatted == FormatSeconds(t.Floor)
    ensures p.playbackTime.durationFormatted == FormatSeconds(d.Floor)
    ensures p.hls == old(p.hls) && p.currentlyPlaying == old(p.currentlyPlaying) && p.playing == old(p.playing)
    ensures p.engines == old(p.engines) && p.selectedBitrate == old(p.selectedBitrate)
    ensures p.volume == old(p.volume) && p.storedVolume == old(p.storedVolume)
    ensures p.audio == old(p.audio).(currentTime := t, duration := Known(d))
  {
    p.MediaAdvanced(t, d);
    p.OnTimeUpdate();
  }

  /**
   * When the last entry of the catalog ends, the element stays paused and
   * nothing else moves; `playing`, untouched since the last toggle, keeps
   * reading `false` although the element is paused.
   */
  method LastEntryEnds(p: Player) returns (outcome: NavOutcome)
    requires p.Valid() && p.currentlyPlaying.Some? && !p.playing
    requires NextTarget(p.catalog, p.currentlyPlaying.value).None?
    modifies p, p.engines
    ensures outcome == AtEdge
    ensures p.Valid() && p.audio.paused && !p.playing
    ensures p.hls == old(p.hls) && p.currentlyPlaying == old(p.currentlyPlaying)
  {
    outcome := p.OnEnded();
  }

  /**
   * With distinct titles, pressing next and letting its manifest arrive, then
   * pressing previous and letting that manifest arrive, shows the entry
   * shown before.
   */
  method NextThenPreviousReselects(p: Player, levels: seq<QualityLevel>)
    requires p.Valid() && p.currentlyPlaying.Some?
    requires DistinctTitles(p.catalog) && p.currentlyPlaying.value in p.catalog
    requires NextTarget(p.catalog, p.currentlyPlaying.value).Some?
    modifies p, p.engines
    ensures p.Valid() && p.currentlyPlaying == old(p.currentlyPlaying)
    ensures |p.LiveEngines()| == 1
  {
    ghost var e := p.currentlyPlaying.value;
    var forward := p.NextSong();
    p.ManifestParsed(p.hls, levels);
    NextThenPrevious(p.catalog, e);
    var back := p.PreviousSong();
    p.ManifestParsed(p.hls, levels);
    p.AtMostOneLive();
  }
}
