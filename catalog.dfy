/**
 * The emote catalog: `buildEmoteUrl`, which picks the widest WEBP file of an
 * emote's host, and the loading loops of `load7TVEmotes`, which fill a
 * name-to-URL map from the entries a catalog response lists.
 */
module Catalog {
  import opened Common

  datatype File = File(name: string, format: string, width: int)

  /** `host.url`: a string, an array of strings (the first is used), or absent. */
  datatype HostUrl = Text(s: string) | List(items: seq<string>) | Missing

  /** `host.files` may be absent, which reads as no files. */
  datatype Host = Host(url: HostUrl, files: Option<seq<File>>)

  /** The entry's emote data with its host; `None` when the data or its host is absent. */
  type EmoteData = Option<Host>

  /** `files.filter(f => f.format === 'WEBP')`. */
  function Webp(files: seq<File>): (w: seq<File>)
    ensures |w| <= |files|
    ensures forall i :: 0 <= i < |w| ==> w[i].format == "WEBP"
  {
    if files == [] then []
    else (if files[0].format == "WEBP" then [files[0]] else []) + Webp(files[1..])
  }

  /** The filter keeps every WEBP file and invents none. */
  lemma {:induction false} WebpExact(files: seq<File>)
    ensures forall f :: f in Webp(files) <==> f in files && f.format == "WEBP"
  {
    if files != [] {
      WebpExact(files[1..]);
      assert files == [files[0]] + files[1..];
    }
  }

  /** A single file is kept exactly when it is WEBP. */
  lemma WebpOne(f: File)
    ensures Webp([f]) == if f.format == "WEBP" then [f] else []
  {
  }

  /**
   * The filter works file by file and keeps the survivors in their original
   * order; with `WebpOne` this fixes it on every list.
   */
  lemma {:induction false} WebpAppend(a: seq<File>, b: seq<File>)
    ensures Webp(a + b) == Webp(a) + Webp(b)
  {
    if a == [] {
      assert a + b == b;
    } else {
      assert (a + b)[0] == a[0] && (a + b)[1..] == a[1..] + b;
      WebpAppend(a[1..], b);
    }
  }

  /**
   * `w[k]` is what a stable ascending sort by width puts last: no file is
   * wider, and every later file is strictly narrower.
   */
  ghost predicate IsBest(w: seq<File>, k: int)
  {
    0 <= k < |w|
    && (forall j :: 0 <= j < |w| ==> w[j].width <= w[k].width)
    && (forall j :: k < j < |w| ==> w[j].width < w[k].width)
  }

  /** At most one file is the best. */
  lemma BestUnique(w: seq<File>, a: int, b: int)
    requires IsBest(w, a) && IsBest(w, b)
    ensures a == b
  {
    assert w[a].width <= w[b].width && w[b].width <= w[a].width;
  }

  /** Index of the last file among those of maximal width. */
  function Widest(w: seq<File>): (k: nat)
    requires |w| > 0
    ensures IsBest(w, k)
    decreases |w|
  {
    if |w| == 1 then 0
    else
      var k := Widest(w[..|w| - 1]);
      if w[|w| - 1].width >= w[k].width then |w| - 1 else k
  }
  /** Two WEBP files of the same width: the later one is taken. */
  lemma WidestPrefersLater()
    ensures Widest([File("a", "WEBP", 2), File("b", "WEBP", 2)]) == 1
  {
    var w := [File("a", "WEBP", 2), File("b", "WEBP", 2)];
    assert w[1].width == w[0].width;
  }


  /** The JavaScript string of `host.url` (or of `host.url[0]`); `undefined` prints as "undefined". */
  function BaseUrl(u: HostUrl): string
  {
    match u
    case Text(s) => s
    case List(items) => if |items| > 0 then items[0] else "undefined"
    case Missing => "undefined"
  }

  /** The WEBP files of an emote, empty when it has no host or no file list. */
  function WebpOf(data: EmoteData): seq<File>
  {
    if data.None? || data.value.files.None? then [] else Webp(data.value.files.value)
  }

  function BuildEmoteUrl(data: EmoteData): Option<string>
  {
    if data.None? || data.value.files.None? || |data.value.files.value| == 0 then None
    else
      var webp := Webp(data.value.files.value);
      if |webp| == 0 then None
      else
        var best := webp[Widest(webp)];
        Some("https:" + BaseUrl(data.value.url) + "/" + best.name)
  }

  /** No URL exactly when the emote has no WEBP file (this covers no host and an absent or empty file list). */
  lemma BuildEmoteUrlNone(data: EmoteData)
    ensures BuildEmoteUrl(data).None? <==> WebpOf(data) == []
  {
  }

  /** A URL, when there is one, points at the best WEBP file on the host's base URL. */
  lemma BuildEmoteUrlPicksBest(data: EmoteData)
    requires BuildEmoteUrl(data).Some?
    ensures data.Some?
    ensures exists k :: (IsBest(WebpOf(data), k)
      && BuildEmoteUrl(data).value == "https:" + BaseUrl(data.value.url) + "/" + WebpOf(data)[k].name)
  {
    var w := WebpOf(data);
    assert IsBest(w, Widest(w));
  }

  /** One catalog entry: the emote's name and its data. */
  datatype Entry = Entry(name: string, data: EmoteData)

  /** The map the loading loop leaves: entries without a URL are skipped, a later entry overwrites an earlier one. */
  function EmoteMap(entries: seq<Entry>): map<string, string>
    decreases |entries|
  {
    if entries == [] then map[]
    else
      var m := EmoteMap(entries[..|entries| - 1]);
      var e := entries[|entries| - 1];
      var url := BuildEmoteUrl(e.data);
      if url.Some? then m[e.name := url.value] else m
  }

  /** `entries[i]` is an entry for `name` that has a URL. */
  ghost predicate Loads(entries: seq<Entry>, name: string, i: int)
  {
    0 <= i < |entries| && entries[i].name == name && BuildEmoteUrl(entries[i].data).Some?
  }

  /** `entries[i]` is the last entry for `name` that has a URL. */
  ghost predicate LastLoaded(entries: seq<Entry>, name: string, i: int)
  {
    Loads(entries, name, i) && forall j :: i < j < |entries| ==> !Loads(entries, name, j)
  }

  /** Unfolding the loading map by its last entry. */
  lemma EmoteMapLast(entries: seq<Entry>, name: string)
    requires entries != []
    ensures name in EmoteMap(entries) <==>
      Loads(entries, name, |entries| - 1) || name in EmoteMap(entries[..|entries| - 1])
  {
  }

  /** A name is loaded exactly when some entry for it has a URL. */
  lemma {:induction false} EmoteMapKeys(entries: seq<Entry>, name: string)
    ensures name in EmoteMap(entries) <==> exists i :: Loads(entries, name, i)
    decreases |entries|
  {
    if entries != [] {
      var n := |entries| - 1;
      var init := entries[..n];
      EmoteMapLast(entries, name);
      EmoteMapKeys(init, name);
      if name in EmoteMap(init) {
        var i :| Loads(init, name, i);
        assert init[i] == entries[i];
        assert Loads(entries, name, i);
      }
      if exists i :: Loads(entries, name, i) {
        var i :| Loads(entries, name, i);
        if i < n {
          assert init[i] == entries[i];
          assert Loads(init, name, i);
        }
      }
    }
  }

  /** A loaded name maps to the URL of the last entry for it that has one (last write wins). */
  lemma {:induction false} EmoteMapValue(entries: seq<Entry>, name: string, i: int)
    requires LastLoaded(entries, name, i)
    ensures name in EmoteMap(entries)
    ensures EmoteMap(entries)[name] == BuildEmoteUrl(entries[i].data).value
    decreases |entries|
  {
    var n := |entries| - 1;
    if i < n {
      var init := entries[..n];
      assert !Loads(entries, name, n);
      assert LastLoaded(init, name, i) by {
        forall j | i < j < |init| ensures !Loads(init, name, j) {
          assert !Loads(entries, name, j);
        }
      }
      EmoteMapValue(init, name, i);
    }
  }

  /**
   * `for (const emote of emotes) { const url = buildEmoteUrl(...); if (url) map.set(emote.name, url); }`
   * on an initially empty map.
   */
  method LoadEmotes(entries: seq<Entry>) returns (m: map<string, string>)
    ensures m == EmoteMap(entries)
  {
    m := map[];
    var i := 0;
    while i < |entries|
      invariant 0 <= i <= |entries|
      invariant m == EmoteMap(entries[..i])
    {
      var url := BuildEmoteUrl(entries[i].data);
      if url.Some? {
        m := m[entries[i].name := url.value];
      }
      assert entries[..i + 1][..i] == entries[..i];
      i := i + 1;
    }
    assert entries[..i] == entries;
  }
}
