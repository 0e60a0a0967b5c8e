/**
 The clipboard watcher and its loop protection (src/internal/clip/watch.go), the one-slot change
 signal that wakes it (src/internal/clip/notify_linux.go) and the callback through which remote
 content reaches the clipboard (src/internal/cli/app/app.go).
 */
module Watching {
  import opened Prelude
  import opened Codec
  import Fnv

  /** `lastHash` and `skipHash` */
  datatype Watch = Watch(last: Key, skip: Key)

  predicate Fires(w: Watch, key: Key) {
    key != w.last && key != w.skip
  }

  function Observe(w: Watch, key: Key): Watch {
    w.(last := key)
  }

  function Write(key: Key): Watch {
    Watch(key, key)
  }

  /** The system clipboard. Whether the backend answers is up to the caller of the model. */
  class Clipboard {
    var content: Content

    constructor (c: Content)
      ensures content == c
    {
      content := c;
    }

    method Read(answers: bool) returns (r: Option<Content>)
      ensures r == if answers then Some(content) else None
    {
      r := if answers then Some(content) else None;
    }

    method Write(c: Content, answers: bool) returns (ok: bool)
      modifies this
      ensures ok == answers
      ensures content == if answers then c else old(content)
    {
      if answers {
        content := c;
      }
      ok := answers;
    }
  }

  /** `hashContent`, the watcher's own copy of the key computation. */
  method HashContent(c: Content) returns (hash: Key)
    ensures hash == KeyOf(c)
  {
    var h := new Fnv.Hasher();
    match c {
      case Image(image, mime) =>
        h.Write([0]);
        h.Write(image);
        h.Write(mime);
        Fnv.SumConcat(Fnv.OFFSET_BASIS, [0], image);
        Fnv.SumConcat(Fnv.OFFSET_BASIS, [0] + image, mime);
      case Text(text) =>
        h.Write([1]);
        h.Write(text);
        Fnv.SumConcat(Fnv.OFFSET_BASIS, [1], text);
    }
    hash := Key(h.sum);
  }

  class Watcher {
    const clip: Clipboard
    var lastHash: Key
    var skipHash: Key

    /** The contents `onChange` was called with, in order. */
    var fired: seq<Content>

    ghost function View(): Watch
      reads this
    {
      Watch(lastHash, skipHash)
    }

    /** `NewWatcher` followed by the snapshot `Run` starts with. */
    constructor (clip: Clipboard, answers: bool)
      ensures this.clip == clip && fired == []
      ensures View() == Watch(if answers then KeyOf(clip.content) else NO_KEY, NO_KEY)
    {
      this.clip := clip;
      skipHash := NO_KEY;
      lastHash := NO_KEY;
      fired := [];
      new;
      var c := clip.Read(answers);
      if c.Some? {
        var h := HashContent(c.value);
        lastHash := h;
      }
    }

    method Check(answers: bool)
      modifies this
      ensures !answers ==> View() == old(View()) && fired == old(fired)
      ensures answers ==> View() == Observe(old(View()), KeyOf(clip.content))
      ensures answers ==> fired == if Fires(old(View()), KeyOf(clip.content))
                                   then old(fired) + [clip.content] else old(fired)
    {
      var c := clip.Read(answers);
      if c.None? {
        return;
      }
      var h := HashContent(c.value);
      var fire := h != lastHash && h != skipHash;
      lastHash := h;
      if fire {
        fired := fired + [c.value];
      }
    }

    method LocalWrite(c: Content, answers: bool)
      modifies this, clip
      ensures fired == old(fired)
      ensures clip.content == if answers then c else old(clip.content)
      ensures View() == if answers then Write(KeyOf(c)) else old(View())
    {
      var ok := clip.Write(c, answers);
      if !ok {
        return;
      }
      var h := HashContent(c);
      skipHash := h;
      lastHash := h;
    }
  }

  /** `writeRemote`: empty payloads are dropped, and a daemon that does not watch just writes. */
  class App {
    const clip: Clipboard
    const watcher: Watcher?

    ghost predicate Valid() {
      watcher != null ==> watcher.clip == clip
    }

    constructor (clip: Clipboard, watcher: Watcher?)
      requires watcher != null ==> watcher.clip == clip
      ensures Valid() && this.clip == clip && this.watcher == watcher
    {
      this.clip := clip;
      this.watcher := watcher;
    }

    method WriteRemote(c: Content, answers: bool)
      requires Valid()
      modifies clip, watcher
      ensures var empty := match c case Text(text) => text == [] case Image(image, _) => image == [];
              && clip.content == (if answers && !empty then c else old(clip.content))
              && (watcher != null ==>
                    watcher.fired == old(watcher.fired)
                    && watcher.View() == if answers && !empty then Write(KeyOf(c)) else old(watcher.View()))
    {
      if c.Image? {
        if |c.image| == 0 {
          return;
        }
      } else if c.text == [] {
        return;
      }
      if watcher != null {
        watcher.LocalWrite(c, answers);
      } else {
        var _ := clip.Write(c, answers);
      }
    }
  }

  /** The channel of capacity one that carries change notifications. */
  class Signal {
    var full: bool

    constructor ()
      ensures !full
    {
      full := false;
    }

    /** The notifier loop over n change events: a send that finds the slot taken is dropped. */
    method Forward(n: nat)
      modifies this
      ensures full == (old(full) || n > 0)
    {
      for i := 0 to n
        invariant full == (old(full) || i > 0)
      {
        if !full {
          full := true;
        }
      }
    }

    method Receive() returns (woken: bool)
      modifies this
      ensures woken == old(full) && !full
    {
      woken := full;
      full := false;
    }
  }

  /**
   A daemon's own remote writes never come back as local changes: checks after them fire nothing
   until someone else changes the clipboard.
   */
  method WriteThenChecks(w: Watcher, c: Content, answers: seq<bool>)
    modifies w, w.clip
    ensures w.fired == old(w.fired)
    ensures w.clip.content == c && w.View() == Write(KeyOf(c))
  {
    w.LocalWrite(c, true);
    for i := 0 to |answers|
      invariant w.fired == old(w.fired)
      invariant w.clip.content == c && w.View() == Write(KeyOf(c))
    {
      w.Check(answers[i]);
    }
  }
}
