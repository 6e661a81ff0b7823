/** The playlist text of the ffconcat helper: parsing the lines of a
    playlist into media names, writing a playlist from names, and the
    append (`add`) and filter (`remove`) edits built on the two. The
    playlist file is read by the caller (`Some(text)`, or `None` when the
    read failed) and the text to write is returned, not written. */
module Ffconcat {
  import opened Wrappers
  import opened Paths

  // ---------------------------------------------------------------------
  // splitting

  /** `s.split(sep)` for a one-character separator: the pieces between
      separators, in order; always at least one piece. */
  function Split(s: string, sep: char): (parts: seq<string>)
    ensures |parts| >= 1
    ensures forall i | 0 <= i < |parts| :: sep !in parts[i]
  {
    if s == [] then [""]
    else if s[0] == sep then [""] + Split(s[1..], sep)
    else
      var rest := Split(s[1..], sep);
      [[s[0]] + rest[0]] + rest[1..]
  }

  /** Splitting at one separator splits the two sides independently. */
  lemma {:induction false} SplitAppend(a: string, sep: char, b: string)
    ensures Split(a + [sep] + b, sep) == Split(a, sep) + Split(b, sep)
  {
    if a == [] {
      assert a + [sep] + b == [sep] + b;
      assert ([sep] + b)[1..] == b;
    } else {
      assert (a + [sep] + b)[0] == a[0];
      assert (a + [sep] + b)[1..] == a[1..] + [sep] + b;
      SplitAppend(a[1..], sep, b);
    }
  }

  /** Text without the separator is a single piece. */
  lemma {:induction false} SplitWithoutSeparator(s: string, sep: char)
    requires sep !in s
    ensures Split(s, sep) == [s]
  {
    if s != [] {
      assert s[0] != sep;
      assert sep !in s[1..];
      SplitWithoutSeparator(s[1..], sep);
      assert [s[0]] + s[1..] == s;
    }
  }

  /** `lineParts[lineParts.length - 1]` after `line.split("/")`: the text
      after the last `/`, or the whole line when it has none. */
  function LastSegment(line: string): (segment: string)
    ensures '/' !in segment
    ensures '/' !in line ==> segment == line
  {
    var parts := Split(line, '/');
    if '/' in line then parts[|parts| - 1]
    else SplitWithoutSeparator(line, '/'); parts[|parts| - 1]
  }

  /** The last segment of a path ending in a plain name is that name. */
  lemma LastSegmentOfPath(dir: string, name: string)
    requires '/' !in name
    ensures LastSegment(dir + "/" + name) == name
  {
    SplitAppend(dir, '/', name);
    SplitWithoutSeparator(name, '/');
  }

  function Lines(data: string): seq<string> {
    Split(data, '\n')
  }

  // ---------------------------------------------------------------------
  // parse

  /** The line filter of `parse` and `remove`: a non-empty line that is not
      a `#` comment and, for `remove`, is not the removed item's path. */
  predicate Kept(line: string, except: Option<string>) {
    line != "" && line[0] != '#' && except != Some(line)
  }

  /** The items gathered from `lines`, in line order. */
  function Collect(lines: seq<string>, except: Option<string>): (items: seq<string>)
    ensures |items| <= |lines|
    ensures forall i | 0 <= i < |items| :: '/' !in items[i]
  {
    if lines == [] then []
    else
      var last := lines[|lines| - 1];
      Collect(lines[..|lines| - 1], except) + (if Kept(last, except) then [LastSegment(last)] else [])
  }

  /** The items of a playlist text. */
  function ItemsOf(data: string): seq<string> {
    Collect(Lines(data), None)
  }

  lemma {:induction false} CollectAppend(l: seq<string>, m: seq<string>, except: Option<string>)
    ensures Collect(l + m, except) == Collect(l, except) + Collect(m, except)
    decreases |m|
  {
    if m == [] {
      assert l + m == l;
    } else {
      assert (l + m)[..|l + m| - 1] == l + m[..|m| - 1];
      CollectAppend(l, m[..|m| - 1], except);
    }
  }

  /** `parse`: one item per kept line, the line's last `/` segment. */
  method Parse(data: string) returns (items: seq<string>)
    ensures items == ItemsOf(data)
  {
    var lines := Lines(data);
    items := [];
    var i := 0;
    while i < |lines|
      invariant 0 <= i <= |lines|
      invariant items == Collect(lines[..i], None)
    {
      var line := lines[i];
      assert lines[..i + 1][..i] == lines[..i];
      if line != "" && line[0] != '#' {
        items := items + [LastSegment(line)];
      }
      i := i + 1;
    }
    assert lines[..|lines|] == lines;
  }

  // ---------------------------------------------------------------------
  // set

  function Header(playlist: string): string {
    "# Playlist Name: " + playlist + ".ffconcat"
  }

  /** The block `set` appends for one item: a blank line, a comment naming
      the item and its path in the media directory. */
  function Entry(root: string, item: string): string {
    "\n\n# File Name: " + item + "\n" + MediaPath(root, item)
  }

  function Entries(root: string, items: seq<string>): string {
    if items == [] then "" else Entries(root, items[..|items| - 1]) + Entry(root, items[|items| - 1])
  }

  /** The text `set` writes for a playlist. */
  function PlaylistText(playlist: string, items: seq<string>, root: string): string {
    Header(playlist) + Entries(root, items)
  }

  /** The text-building part of `set`. */
  method Set(playlist: string, items: seq<string>, root: string) returns (data: string)
    ensures data == PlaylistText(playlist, items, root)
  {
    data := Header(playlist);
    for i := 0 to |items|
      invariant data == Header(playlist) + Entries(root, items[..i])
    {
      assert items[..i + 1][..i] == items[..i];
      data := data + ("\n\n# File Name: " + items[i] + "\n" + MediaPath(root, items[i]));
    }
    assert items[..|items|] == items;
  }

  /** An entry adds three lines: a blank one, the comment and the path. */
  lemma EntryLines(text: string, root: string, item: string)
    requires ValidRoot(root) && PlainName(item)
    ensures Lines(text + Entry(root, item))
         == Lines(text) + ["", "# File Name: " + item, MediaPath(root, item)]
  {
    var comment := "# File Name: " + item;
    var path := MediaPath(root, item);
    assert '\n' !in comment by {
      forall i | 0 <= i < |comment| ensures comment[i] != '\n' {
        if i >= 13 { assert comment[i] == item[i - 13]; }
      }
    }
    assert '\n' !in path by {
      forall i | 0 <= i < |path| ensures path[i] != '\n' {
        if i < |root| { assert path[i] == root[i]; }
        else if i >= |root| + 12 { assert path[i] == item[i - |root| - 12]; }
      }
    }
    var tail := comment + "\n" + path;
    assert text + Entry(root, item) == text + ['\n'] + ("" + ['\n'] + tail);
    SplitAppend(text, '\n', "" + ['\n'] + tail);
    SplitAppend("", '\n', tail);
    SplitAppend(comment, '\n', path);
    SplitWithoutSeparator(comment, '\n');
    SplitWithoutSeparator(path, '\n');
  }

  /** The path of a media item names that item and no other. */
  lemma MediaPathNames(root: string, a: string, b: string)
    requires MediaPath(root, a) == MediaPath(root, b)
    ensures a == b
  {
    var prefix := root + "/data/media/";
    assert MediaPath(root, a)[|prefix|..] == a;
    assert MediaPath(root, b)[|prefix|..] == b;
  }

  /** The three lines of an entry contribute the item, unless it is the
      excluded path. */
  lemma CollectEntry(root: string, item: string, except: Option<string>)
    requires ValidRoot(root) && PlainName(item)
    ensures Collect(["", "# File Name: " + item, MediaPath(root, item)], except)
         == if except == Some(MediaPath(root, item)) then [] else [item]
  {
    var lines := ["", "# File Name: " + item, MediaPath(root, item)];
    assert Collect(lines[..1], except) == [] by {
      assert lines[..1][..0] == [];
    }
    assert Collect(lines[..2], except) == [] by {
      assert lines[..2][..1] == lines[..1];
      assert !Kept(lines[1], except);
    }
    assert lines[..|lines| - 1] == lines[..2];
    assert MediaPath(root, item)[0] == '/';
    assert MediaPath(root, item) == (root + "/data/media") + "/" + item;
    LastSegmentOfPath(root + "/data/media", item);
  }

  /** Appending an entry to any text adds its item to the parsed items. */
  lemma {:induction false} ItemsOfEntry(text: string, root: string, item: string)
    requires ValidRoot(root) && PlainName(item)
    ensures ItemsOf(text + Entry(root, item)) == ItemsOf(text) + [item]
  {
    EntryLines(text, root, item);
    CollectAppend(Lines(text), ["", "# File Name: " + item, MediaPath(root, item)], None);
    CollectEntry(root, item, None);
  }

  /** The text for a non-empty list is the text for all but the last item
      followed by the last item's entry. */
  lemma PlaylistTextSnoc(playlist: string, items: seq<string>, root: string)
    requires items != []
    ensures PlaylistText(playlist, items, root)
         == PlaylistText(playlist, items[..|items| - 1], root) + Entry(root, items[|items| - 1])
  {
    var init := items[..|items| - 1];
    assert Entries(root, items) == Entries(root, init) + Entry(root, items[|items| - 1]);
    assert Header(playlist) + (Entries(root, init) + Entry(root, items[|items| - 1]))
        == (Header(playlist) + Entries(root, init)) + Entry(root, items[|items| - 1]);
  }

  /** Round trip: parsing the text `set` writes gives back the items, when
      the names are plain and the playlist name is one line. */
  lemma {:induction false} ParseSetRoundTrip(playlist: string, items: seq<string>, root: string)
    requires '\n' !in playlist && ValidRoot(root)
    requires forall i | 0 <= i < |items| :: PlainName(items[i])
    ensures ItemsOf(PlaylistText(playlist, items, root)) == items
  {
    if items == [] {
      assert PlaylistText(playlist, items, root) == Header(playlist);
      HeaderLines(playlist, None);
    } else {
      var init := items[..|items| - 1];
      var last := items[|items| - 1];
      PlaylistTextSnoc(playlist, items, root);
      ParseSetRoundTrip(playlist, init, root);
      ItemsOfEntry(PlaylistText(playlist, init, root), root, last);
      assert init + [last] == items;
    }
  }

  // ---------------------------------------------------------------------
  // add

  /** What `add` returns and writes: the text it parsed (`raw`), the items it
      parsed from it and the text `set` writes, each `None` where the source
      has `false`. */
  datatype AddResult = AddResult(raw: Option<string>, items: Option<seq<string>>, written: Option<string>)

  /** `add` as written: the entry for a truthy item is appended to what `get`
      returned, which is the boolean `false` when the file could not be
      read; `parse` and `set` then fail on a bare `false`. */
  function Appended(read: Option<string>, item: string, root: string): Option<string> {
    match read
    case Some(text) => Some(if item != "" then text + Entry(root, item) else text)
    case None => if item != "" then Some("false" + Entry(root, item)) else None
  }

  function AddOutcome(read: Option<string>, playlist: string, item: string, root: string): AddResult {
    match Appended(read, item, root)
    case None => AddResult(None, None, None)
    case Some(data) =>
      var items := ItemsOf(data);
      AddResult(Some(data), Some(items), Some(PlaylistText(playlist, items, root)))
  }

  /** `add`: append the entry, re-parse and re-write the playlist. */
  method Add(read: Option<string>, playlist: string, item: string, root: string) returns (result: AddResult)
    ensures result == AddOutcome(read, playlist, item, root)
  {
    var data: Option<string> := read;
    if item != "" {
      data := Some(if read.Some? then read.value + Entry(root, item) else "false" + Entry(root, item));
    }
    if data.None? {
      return AddResult(None, None, None);
    }
    var items := Parse(data.value);
    var written := Set(playlist, items, root);
    result := AddResult(data, Some(items), Some(written));
  }

  /** Adding a plain name to a readable playlist appends it to the items,
      and the text written parses back to the same items. */
  lemma AddAppendsItem(text: string, playlist: string, item: string, root: string)
    requires ValidRoot(root) && PlainName(item) && '\n' !in playlist
    requires forall i | 0 <= i < |ItemsOf(text)| :: PlainName(ItemsOf(text)[i])
    ensures AddOutcome(Some(text), playlist, item, root).items == Some(ItemsOf(text) + [item])
    ensures ItemsOf(AddOutcome(Some(text), playlist, item, root).written.value) == ItemsOf(text) + [item]
  {
    ItemsOfEntry(text, root, item);
    ParseSetRoundTrip(playlist, ItemsOf(text) + [item], root);
  }

  /** A falsy item leaves the parsed items as they were. */
  lemma AddFalsyItem(text: string, playlist: string, root: string)
    ensures AddOutcome(Some(text), playlist, "", root) == AddResult(Some(text), Some(ItemsOf(text)), Some(PlaylistText(playlist, ItemsOf(text), root)))
  {
  }

  /** Adding to a playlist that cannot be read turns the word `false` into
      a first item of the new playlist. */
  lemma AddToMissingPlaylist(playlist: string, item: string, root: string)
    requires ValidRoot(root) && PlainName(item)
    ensures AddOutcome(None, playlist, item, root).items == Some(["false", item])
  {
    ItemsOfEntry("false", root, item);
    SplitWithoutSeparator("false", '\n');
    assert '/' !in "false";
    assert LastSegment("false") == "false";
    assert Kept("false", None);
    assert Lines("false")[..0] == [];
    assert ItemsOf("false") == ["false"];
    assert Appended(None, item, root) == Some("false" + Entry(root, item));
    assert ItemsOf("false" + Entry(root, item)) == ["false", item];
  }

  /** `add` as evidently intended: a playlist that cannot be read is an
      empty one, so the new playlist holds just the added item. */
  function CorrectedAddOutcome(read: Option<string>, playlist: string, item: string, root: string): (result: AddResult)
    ensures ValidRoot(root) && PlainName(item) && read.None? ==> result.items == Some([item])
    ensures read.Some? ==> result == AddOutcome(read, playlist, item, root)
  {
    var text := read.GetOr("");
    if read.None? && ValidRoot(root) && PlainName(item) then
      ItemsOfEntry(text, root, item);
      assert text + Entry(root, item) == Entry(root, item);
      AddOutcome(Some(text), playlist, item, root)
    else AddOutcome(Some(text), playlist, item, root)
  }

  /** A one-line header parses to no items. */
  lemma HeaderLines(playlist: string, except: Option<string>)
    requires '\n' !in playlist
    ensures Lines(Header(playlist)) == [Header(playlist)]
    ensures Collect(Lines(Header(playlist)), except) == []
  {
    var h := Header(playlist);
    assert '\n' !in h by {
      forall i | 0 <= i < |h| ensures h[i] != '\n' {
        if 17 <= i < 17 + |playlist| { assert h[i] == playlist[i - 17]; }
      }
    }
    SplitWithoutSeparator(h, '\n');
    assert [h][..0] == [];
  }

  // ---------------------------------------------------------------------
  // remove

  /** `remove`'s filter over the lines of the playlist read. */
  function Remaining(data: string, item: string, root: string): seq<string> {
    Collect(Lines(data), Some(MediaPath(root, item)))
  }

  datatype RemoveResult = RemoveResult(items: seq<string>, raw: string)

  /** `remove`: drop the lines that are the item's path, keep the last
      segment of every other kept line, and re-write the playlist; `None`
      (the source's `false`) when the playlist could not be read. */
  method Remove(read: Option<string>, playlist: string, item: string, root: string) returns (result: Option<RemoveResult>)
    ensures read.None? ==> result.None?
    ensures read.Some? ==> result == Some(RemoveResult(Remaining(read.value, item, root),
                                                      PlaylistText(playlist, Remaining(read.value, item, root), root)))
  {
    var itemPath := MediaPath(root, item);
    if read.None? {
      return None;
    }
    var lines := Lines(read.value);
    var items := [];
    var i := 0;
    while i < |lines|
      invariant 0 <= i <= |lines|
      invariant items == Collect(lines[..i], Some(itemPath))
    {
      var line := lines[i];
      assert lines[..i + 1][..i] == lines[..i];
      if line != "" && line[0] != '#' && line != itemPath {
        items := items + [LastSegment(line)];
      }
      i := i + 1;
    }
    assert lines[..|lines|] == lines;
    var raw := Set(playlist, items, root);
    return Some(RemoveResult(items, raw));
  }

  /** The items other than `item`, in order. */
  function Without(items: seq<string>, item: string): (rest: seq<string>)
    ensures |rest| <= |items|
    ensures forall i | 0 <= i < |rest| :: rest[i] != item
  {
    if items == [] then []
    else Without(items[..|items| - 1], item) + (if items[|items| - 1] == item then [] else [items[|items| - 1]])
  }

  /** Removing from a playlist `set` wrote removes every occurrence of the
      item and keeps the order of the others. */
  lemma {:induction false} RemoveFromPlaylist(playlist: string, items: seq<string>, item: string, root: string)
    requires '\n' !in playlist && ValidRoot(root)
    requires forall i | 0 <= i < |items| :: PlainName(items[i])
    ensures Remaining(PlaylistText(playlist, items, root), item, root) == Without(items, item)
  {
    var path := MediaPath(root, item);
    if items == [] {
      assert PlaylistText(playlist, items, root) == Header(playlist);
      HeaderLines(playlist, Some(path));
    } else {
      var init := items[..|items| - 1];
      var last := items[|items| - 1];
      var text := PlaylistText(playlist, init, root);
      PlaylistTextSnoc(playlist, items, root);
      RemoveFromPlaylist(playlist, init, item, root);
      EntryLines(text, root, last);
      CollectAppend(Lines(text), ["", "# File Name: " + last, MediaPath(root, last)], Some(path));
      CollectEntry(root, last, Some(path));
      if MediaPath(root, last) == path {
        MediaPathNames(root, last, item);
      }
    }
  }
}
