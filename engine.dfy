/**
 * The adaptive-streaming engine as the player uses it: an object that can
 * be given a source, attached to the audio element, given a handler for
 * its "manifest parsed" event, told which quality level to use, and
 * destroyed. Its network and decoding work is not modelled.
 */
module Streaming {
  import opened Wrappers
  import opened Catalog

  /** The server every relative path of the catalog is resolved against. */
  const Origin: string := "https://runebound.spellforce.info"

  /** The absolute stream locator of an entry. */
  function StreamUrl(entry: Entry): (r: string)
    ensures |r| == |Origin| + |entry.stream|
    ensures r[..|Origin|] == Origin && r[|Origin|..] == entry.stream
  {
    Origin + entry.stream
  }

  /** Two entries are streamed from the same locator exactly when their stream paths agree. */
  lemma SameLocator(a: Entry, b: Entry)
    ensures StreamUrl(a) == StreamUrl(b) <==> a.stream == b.stream
  {
    if StreamUrl(a) == StreamUrl(b) {
      assert a.stream == StreamUrl(a)[|Origin|..];
    }
  }

  class Engine {
    /** False once `Destroy` has run. */
    var alive: bool
    /** The locator passed to `LoadSource`. */
    var source: Option<string>
    /** Whether the engine feeds the audio element. */
    var attached: bool
    /**
     * The registered "manifest parsed" handler, represented by the entry its
     * closure captured; the handler's body is `Session.Player.ManifestParsed`.
     */
    var manifestHandler: Option<Entry>
    /** The selected quality level; -1 lets the engine choose. */
    var currentLevel: int

    constructor ()
      ensures alive && source == None && !attached && manifestHandler == None && currentLevel == -1
    {
      alive := true;
      source := None;
      attached := false;
      manifestHandler := None;
      currentLevel := -1;
    }

    method LoadSource(url: string)
      modifies this
      ensures source == Some(url)
      ensures alive == old(alive) && attached == old(attached)
      ensures manifestHandler == old(manifestHandler) && currentLevel == old(currentLevel)
    {
      source := Some(url);
    }

    method AttachMedia()
      modifies this
      ensures attached
      ensures alive == old(alive) && source == old(source)
      ensures manifestHandler == old(manifestHandler) && currentLevel == old(currentLevel)
    {
      attached := true;
    }

    method OnManifestParsed(entry: Entry)
      modifies this
      ensures manifestHandler == Some(entry)
      ensures alive == old(alive) && source == old(source)
      ensures attached == old(attached) && currentLevel == old(currentLevel)
    {
      manifestHandler := Some(entry);
    }

    /** Releases the engine: it detaches from the element and drops its handlers. */
    method Destroy()
      modifies this
      ensures !alive && !attached && manifestHandler == None
      ensures source == old(source) && currentLevel == old(currentLevel)
    {
      alive := false;
      attached := false;
      manifestHandler := None;
    }
  }
}
