/** internal/api/ws.go: streaming a job's status and the growth of its log files to a subscriber. */
module LogTail {
  import opened Wrappers
  import opened Octets
  import opened Utf8

  type Path = string

  // A log file as one tick sees it: its size when asked, and its content when read a moment later.
  datatype FileView = FileView(size: nat, content: Bytes)

  // A file the directory listing named; None when it was gone before it could be opened.
  datatype Listed = Listed(path: Path, view: Option<FileView>)

  // What one tick finds: no such job, or its status and error and the listed log files.
  datatype Sample = Missing | Found(status: string, error: string, files: seq<Listed>)

  datatype Message = Status(status: string, error: string) | Log(path: Path, chunk: Bytes)

  // ---------- One file ----------

  // readLogChunks: a file shorter than the offset is read from its start.
  function StartOf(view: FileView, offset: nat): nat {
    if view.size < offset then 0 else offset
  }

  function Unread(view: FileView, offset: nat): Bytes {
    var start := StartOf(view, offset);
    if start <= |view.content| then view.content[start..] else []
  }

  // What the stream holds for one file: the stored offset, all bytes handed over for sending so far,
  // and the text the subscriber has decoded from the messages.
  datatype Tail = Tail(offset: Option<nat>, read: Bytes, delivered: Bytes)

  const UNREAD := Tail(None, [], [])

  function OffsetOf(t: Tail): nat {
    if t.offset.Some? then t.offset.value else 0
  }

  function Follow(t: Tail, view: Option<FileView>): Tail {
    match view
    case None => t.(offset := None)
    case Some(v) =>
      var chunk := Unread(v, OffsetOf(t));
      Tail(Some(StartOf(v, OffsetOf(t)) + |chunk|), t.read + chunk, t.delivered + ThroughJson(chunk))
  }

  function FollowAll(views: seq<Option<FileView>>): Tail {
    if views == [] then UNREAD
    else Follow(FollowAll(views[..|views| - 1]), views[|views| - 1])
  }

  // A file that only grows: never shorter than what was read before, and read no shorter than asked.
  ghost predicate OnlyGrows(views: seq<Option<FileView>>) {
    && (forall i :: 0 <= i < |views| ==> views[i].Some? && views[i].value.size <= |views[i].value.content|)
    && forall i :: 0 <= i < |views| - 1 ==>
         && views[i].value.content <= views[i + 1].value.content
         && |views[i].value.content| <= views[i + 1].value.size
  }

  /** One more tick on a file read completely before: what has been read is again the whole content
      if and only if the file still starts with what was read and had not become shorter. */
  lemma FollowIsExact(t: Tail, v: FileView)
    requires t.offset == Some(|t.read|)
    ensures Follow(t, Some(v)).read == v.content <==> t.read <= v.content && |t.read| <= v.size
    ensures v.size <= |v.content| ==> Follow(t, Some(v)).offset == Some(|v.content|)
  {
    var seen := t.read;
    if v.size < |seen| {
      assert |seen + v.content[0..]| > |v.content|;
    } else if seen <= v.content {
      assert seen + v.content[|seen|..] == v.content;
    } else if |seen| <= |v.content| {
      assert seen <= seen + v.content[|seen|..];
    }
  }

  lemma GrowsBefore(views: seq<Option<FileView>>)
    requires OnlyGrows(views) && |views| > 1
    ensures OnlyGrows(views[..|views| - 1])
    ensures var seen, last := views[|views| - 2].value.content, views[|views| - 1].value;
            seen <= last.content && |seen| <= last.size
  {
    var before := views[..|views| - 1];
    forall i | 0 <= i < |before| - 1
      ensures before[i].value.content <= before[i + 1].value.content
      ensures |before[i].value.content| <= before[i + 1].value.size
    {
      assert before[i] == views[i] && before[i + 1] == views[i + 1];
    }
  }

  lemma LastIsSized(views: seq<Option<FileView>>)
    requires OnlyGrows(views) && views != []
    ensures views[|views| - 1].value.size <= |views[|views| - 1].value.content|
  {
  }

  lemma {:induction false} FollowsGrowth(views: seq<Option<FileView>>)
    requires OnlyGrows(views) && views != []
    ensures var content := views[|views| - 1].value.content;
            FollowAll(views).offset == Some(|content|) && FollowAll(views).read == content
  {
    var n := |views|;
    var last := views[n - 1].value;
    if n > 1 {
      GrowsBefore(views);
      LastIsSized(views);
      hide OnlyGrows, Follow;
      FollowsGrowth(views[..n - 1]);
      FollowIsExact(FollowAll(views[..n - 1]), last);
    } else {
      assert views[..0] == [];
      assert [] + last.content[0..] == last.content;
    }
  }

  // ---------- The stream ----------

  datatype Stream = Stream(offsets: map<Path, nat>, lastStatus: string, lastError: string, sent: seq<Message>)

  const SUBSCRIBED := Stream(map[], "", "", [])

  function TailOf(st: Stream, path: Path): Tail {
    Tail(if path in st.offsets then Some(st.offsets[path]) else None, ReadOf(st.sent, path), Delivered(st.sent, path))
  }

  // The bytes handed over for a file, all chunks concatenated.
  function ReadOf(sent: seq<Message>, path: Path): Bytes {
    if sent == [] then []
    else
      var last := sent[|sent| - 1];
      ReadOf(sent[..|sent| - 1], path) + (if last.Log? && last.path == path then last.chunk else [])
  }

  // The text of a file as the subscriber receives it: every message is a JSON string.
  function Delivered(sent: seq<Message>, path: Path): Bytes {
    if sent == [] then []
    else
      var last := sent[|sent| - 1];
      Delivered(sent[..|sent| - 1], path) + (if last.Log? && last.path == path then ThroughJson(last.chunk) else [])
  }

  function SendStatus(st: Stream, status: string, error: string): Stream {
    if status != st.lastStatus || error != st.lastError
    then Stream(st.offsets, status, error, st.sent + [Status(status, error)])
    else st
  }

  function FollowFile(st: Stream, file: Listed): Stream {
    match file.view
    case None => st.(offsets := st.offsets - {file.path})
    case Some(v) =>
      var offset := OffsetOf(TailOf(st, file.path));
      var chunk := Unread(v, offset);
      st.(offsets := st.offsets[file.path := StartOf(v, offset) + |chunk|],
          sent := if chunk == [] then st.sent else st.sent + [Log(file.path, chunk)])
  }

  function FollowFiles(st: Stream, files: seq<Listed>): Stream {
    if files == [] then st else FollowFile(FollowFiles(st, files[..|files| - 1]), files[|files| - 1])
  }

  function Ticked(st: Stream, sample: Sample): Stream {
    match sample
    case Missing => st
    case Found(status, error, files) => FollowFiles(SendStatus(st, status, error), files)
  }

  function TickedAll(samples: seq<Sample>): Stream {
    if samples == [] then SUBSCRIBED else Ticked(TickedAll(samples[..|samples| - 1]), samples[|samples| - 1])
  }

  // ---------- Every file is followed on its own ----------

  function ViewsIn(files: seq<Listed>, path: Path): seq<Option<FileView>> {
    if files == [] then []
    else ViewsIn(files[..|files| - 1], path) + (if files[|files| - 1].path == path then [files[|files| - 1].view] else [])
  }

  // The successive sightings of one file.
  function ViewsOf(samples: seq<Sample>, path: Path): seq<Option<FileView>> {
    if samples == [] then []
    else
      var last := samples[|samples| - 1];
      ViewsOf(samples[..|samples| - 1], path) + (if last.Found? then ViewsIn(last.files, path) else [])
  }

  lemma SentAppend(sent: seq<Message>, m: Message, path: Path)
    ensures ReadOf(sent + [m], path) == ReadOf(sent, path) + (if m.Log? && m.path == path then m.chunk else [])
    ensures Delivered(sent + [m], path) ==
            Delivered(sent, path) + (if m.Log? && m.path == path then ThroughJson(m.chunk) else [])
  {
    assert (sent + [m])[..|sent|] == sent;
  }

  lemma EmptyThroughJson()
    ensures ThroughJson([]) == []
  {
  }

  lemma FollowFileTail(st: Stream, file: Listed, path: Path)
    ensures TailOf(FollowFile(st, file), path) ==
            if path == file.path then Follow(TailOf(st, path), file.view) else TailOf(st, path)
  {
    hide Unread, StartOf, ThroughJson;
    if file.view.Some? {
      EmptyThroughJson();
      var chunk := Unread(file.view.value, OffsetOf(TailOf(st, file.path)));
      SentAppend(st.sent, Log(file.path, chunk), path);
      assert ReadOf(st.sent, path) + [] == ReadOf(st.sent, path);
      assert Delivered(st.sent, path) + [] == Delivered(st.sent, path);
    }
  }

  function FollowFrom(t: Tail, views: seq<Option<FileView>>): Tail {
    if views == [] then t else Follow(FollowFrom(t, views[..|views| - 1]), views[|views| - 1])
  }

  lemma {:induction false} FollowFromAppend(t: Tail, xs: seq<Option<FileView>>, ys: seq<Option<FileView>>)
    ensures FollowFrom(t, xs + ys) == FollowFrom(FollowFrom(t, xs), ys)
  {
    if ys == [] {
      assert xs + ys == xs;
    } else {
      hide Follow;
      var all := xs + ys;
      assert all[..|all| - 1] == xs + ys[..|ys| - 1] && all[|all| - 1] == ys[|ys| - 1] && all != [];
      FollowFromAppend(t, xs, ys[..|ys| - 1]);
    }
  }

  lemma {:induction false} FollowFromStart(views: seq<Option<FileView>>)
    ensures FollowFrom(UNREAD, views) == FollowAll(views)
  {
    if views != [] {
      hide Follow;
      FollowFromStart(views[..|views| - 1]);
    }
  }

  lemma {:induction false} FollowFilesTail(st: Stream, files: seq<Listed>, path: Path)
    ensures TailOf(FollowFiles(st, files), path) == FollowFrom(TailOf(st, path), ViewsIn(files, path))
  {
    if files != [] {
      hide Follow, FollowFile, TailOf;
      var init, last := files[..|files| - 1], files[|files| - 1];
      FollowFilesTail(st, init, path);
      FollowFileTail(FollowFiles(st, init), last, path);
      if last.path == path {
        assert ViewsIn(files, path)[..|ViewsIn(init, path)|] == ViewsIn(init, path);
      } else {
        assert ViewsIn(files, path) == ViewsIn(init, path);
      }
    }
  }

  lemma SendStatusTail(st: Stream, status: string, error: string, path: Path)
    ensures TailOf(SendStatus(st, status, error), path) == TailOf(st, path)
  {
    SentAppend(st.sent, Status(status, error), path);
    assert ReadOf(st.sent, path) + [] == ReadOf(st.sent, path);
    assert Delivered(st.sent, path) + [] == Delivered(st.sent, path);
  }

  lemma {:induction false} TailOfTicks(samples: seq<Sample>, path: Path)
    ensures TailOf(TickedAll(samples), path) == FollowAll(ViewsOf(samples, path))
  {
    if samples != [] {
      hide FollowFiles, SendStatus, TailOf, ViewsIn;
      var init, last := samples[..|samples| - 1], samples[|samples| - 1];
      TailOfTicks(init, path);
      if last.Found? {
        SendStatusTail(TickedAll(init), last.status, last.error, path);
        FollowFilesTail(SendStatus(TickedAll(init), last.status, last.error), last.files, path);
        FollowFromStart(ViewsOf(init, path));
        FollowFromAppend(UNREAD, ViewsOf(init, path), ViewsIn(last.files, path));
        FollowFromStart(ViewsOf(samples, path));
      } else {
        assert ViewsOf(samples, path) == ViewsOf(init, path);
      }
    } else {
      NothingSent(path);
    }
  }

  lemma NothingSent(path: Path)
    ensures TailOf(SUBSCRIBED, path) == UNREAD
  {
  }

  /** After any ticks since the subscription, the chunks read from a file that only grows are, put
      together, exactly its content as last read, which is its prefix up to the stored offset: no
      gap, no repeat. For a file never seen nothing has been sent. */
  lemma ChunksAreThePrefix(samples: seq<Sample>, path: Path)
    requires OnlyGrows(ViewsOf(samples, path))
    ensures var st := TickedAll(samples);
            var views := ViewsOf(samples, path);
            if views == []
            then path !in st.offsets && ReadOf(st.sent, path) == [] && Delivered(st.sent, path) == []
            else
              && path in st.offsets && st.offsets[path] == |views[|views| - 1].value.content|
              && ReadOf(st.sent, path) == views[|views| - 1].value.content
  {
    TailOfTicks(samples, path);
    if ViewsOf(samples, path) != [] {
      FollowsGrowth(ViewsOf(samples, path));
    }
  }

  // ---------- What the subscriber receives ----------

  // The first o bytes of a text end with a character.
  predicate IsBoundary(content: Bytes, o: nat) {
    o <= |content| && ValidUtf8(content[..o])
  }

  // Every tick left the offset on a character boundary of what was finally read.
  ghost predicate OnBoundaries(views: seq<Option<FileView>>)
    requires OnlyGrows(views) && views != []
  {
    var content := views[|views| - 1].value.content;
    forall i :: 0 <= i < |views| ==> IsBoundary(content, |views[i].value.content|)
  }

  lemma {:induction false} GrowsAlong(views: seq<Option<FileView>>, i: nat)
    requires OnlyGrows(views) && i < |views|
    ensures views[i].value.content <= views[|views| - 1].value.content
    decreases |views| - i
  {
    if i + 1 < |views| {
      GrowsAlong(views, i + 1);
      assert views[i].value.content <= views[i + 1].value.content;
    }
  }

  lemma BoundariesBefore(views: seq<Option<FileView>>)
    requires OnlyGrows(views) && |views| > 1 && OnlyGrows(views[..|views| - 1])
    ensures OnBoundaries(views) <==>
            OnBoundaries(views[..|views| - 1]) && ValidUtf8(views[|views| - 1].value.content)
  {
    hide ValidUtf8;
    var n := |views|;
    var before := views[..n - 1];
    var seen, content := before[n - 2].value.content, views[n - 1].value.content;
    GrowsAlong(views, n - 2);
    forall i | 0 <= i < n - 1
      ensures IsBoundary(content, |views[i].value.content|) <==> IsBoundary(seen, |before[i].value.content|)
    {
      GrowsAlong(before, i);
      assert before[i] == views[i];
      assert content[..|views[i].value.content|] == seen[..|views[i].value.content|];
    }
    assert content[..|content|] == content;
  }

  lemma JsonOfTwo(seen: Bytes, delivered: Bytes, chunk: Bytes)
    requires |delivered| >= |seen|
    ensures delivered + ThroughJson(chunk) == seen + chunk <==> delivered == seen && ValidUtf8(chunk)
  {
    JsonNeverShortens(chunk);
    JsonKeepsUtf8(chunk);
    if delivered + ThroughJson(chunk) == seen + chunk {
      assert |delivered| == |seen|;
      assert delivered == (delivered + ThroughJson(chunk))[..|seen|] == seen;
      assert ThroughJson(chunk) == (delivered + ThroughJson(chunk))[|seen|..] == chunk;
    }
  }

  lemma {:induction false} DeliversGrowth(views: seq<Option<FileView>>)
    requires OnlyGrows(views) && views != []
    ensures var content := views[|views| - 1].value.content;
            && |FollowAll(views).delivered| >= |content|
            && (FollowAll(views).delivered == content <==> OnBoundaries(views))
  {
    var n := |views|;
    var last := views[n - 1].value;
    if n == 1 {
      DeliversFirst(views);
    } else {
      GrowsBefore(views);
      LastIsSized(views);
      BoundariesBefore(views);
      DeliversGrowth(views[..n - 1]);
      FollowsGrowth(views[..n - 1]);
      BoundariesEndValid(views[..n - 1]);
      hide OnlyGrows, OnBoundaries, ValidUtf8;
      assert FollowAll(views) == Follow(FollowAll(views[..n - 1]), Some(last));
      DeliversMore(FollowAll(views[..n - 1]), last, OnBoundaries(views[..n - 1]));
    }
  }

  lemma DeliversFirst(views: seq<Option<FileView>>)
    requires OnlyGrows(views) && |views| == 1
    ensures var content := views[0].value.content;
            && |FollowAll(views).delivered| >= |content|
            && (FollowAll(views).delivered == content <==> OnBoundaries(views))
  {
    hide ValidUtf8, ThroughJson;
    var content := views[0].value.content;
    assert views[..0] == [] && content[0..] == content == content[..|content|];
    assert FollowAll(views).delivered == [] + ThroughJson(content) == ThroughJson(content);
    JsonNeverShortens(content);
    JsonKeepsUtf8(content);
  }

  lemma BoundariesEndValid(views: seq<Option<FileView>>)
    requires OnlyGrows(views) && views != []
    ensures OnBoundaries(views) ==> ValidUtf8(views[|views| - 1].value.content)
  {
    hide ValidUtf8;
    var content := views[|views| - 1].value.content;
    assert content[..|content|] == content;
    assert OnBoundaries(views) ==> IsBoundary(content, |views[|views| - 1].value.content|);
  }

  // One more tick on a grown file, when what was delivered so far is right exactly if `right` holds.
  lemma DeliversMore(t: Tail, v: FileView, right: bool)
    requires t.offset == Some(|t.read|) && t.read <= v.content && |t.read| <= v.size <= |v.content|
    requires |t.delivered| >= |t.read| && (t.delivered == t.read <==> right)
    requires right ==> ValidUtf8(t.read)
    ensures |Follow(t, Some(v)).delivered| >= |v.content|
    ensures Follow(t, Some(v)).delivered == v.content <==> right && ValidUtf8(v.content)
  {
    hide ValidUtf8, ThroughJson;
    var chunk := v.content[|t.read|..];
    assert t.read + chunk == v.content;
    assert Follow(t, Some(v)).delivered == t.delivered + ThroughJson(chunk);
    JsonOfTwo(t.read, t.delivered, chunk);
    JsonNeverShortens(chunk);
    if right {
      ValidAppend(t.read, chunk);
    }
  }

  /** The text a subscriber receives for a file that only grows equals the file as last read if and
      only if that content is UTF-8 and every tick left the stored offset on a character boundary. */
  lemma SubscriberSeesTheFile(samples: seq<Sample>, path: Path)
    requires OnlyGrows(ViewsOf(samples, path)) && ViewsOf(samples, path) != []
    ensures var views := ViewsOf(samples, path);
            Delivered(TickedAll(samples).sent, path) == views[|views| - 1].value.content <==> OnBoundaries(views)
  {
    hide Delivered, FollowAll, OnlyGrows, OnBoundaries, TickedAll, ViewsOf;
    TailOfTicks(samples, path);
    DeliversGrowth(ViewsOf(samples, path));
  }

  // A log holding one e with an acute accent, seen first when only half of it had been written.
  const HALF_WRITTEN := [
    Found("running", "", [Listed("plan.log", Some(FileView(1, [0xC3])))]),
    Found("running", "", [Listed("plan.log", Some(FileView(2, [0xC3, 0xA9])))])]

  lemma HalfWrittenViews()
    ensures ViewsOf(HALF_WRITTEN, "plan.log") == [Some(FileView(1, [0xC3])), Some(FileView(2, [0xC3, 0xA9]))]
  {
    var one := HALF_WRITTEN[..1];
    assert HALF_WRITTEN[..|HALF_WRITTEN| - 1] == one && one[..|one| - 1] == [];
    var first, second := HALF_WRITTEN[0].files, HALF_WRITTEN[1].files;
    assert first[..|first| - 1] == [] && second[..|second| - 1] == [];
    assert ViewsIn(first, "plan.log") == [Some(FileView(1, [0xC3]))];
    assert ViewsIn(second, "plan.log") == [Some(FileView(2, [0xC3, 0xA9]))];
    assert ViewsOf(one, "plan.log") == [Some(FileView(1, [0xC3]))];
  }

  lemma HalvesThroughJson()
    ensures ThroughJson([0xC3]) == REPLACEMENT && ThroughJson([0xA9]) == REPLACEMENT
    ensures !ValidUtf8([0xC3]) && ValidUtf8([0xC3, 0xA9])
  {
    assert CharLength([0xC3]) == 0 && CharLength([0xA9]) == 0 && CharLength([0xC3, 0xA9]) == 2;
    assert ThroughJson([]) == [] && REPLACEMENT + [] == REPLACEMENT;
    assert [0xC3, 0xA9][2..] == [];
  }

  lemma HalfWrittenFollowed()
    ensures FollowAll([Some(FileView(1, [0xC3])), Some(FileView(2, [0xC3, 0xA9]))]).delivered == REPLACEMENT + REPLACEMENT
  {
    hide ThroughJson;
    HalvesThroughJson();
    var a, b := Some(FileView(1, [0xC3])), Some(FileView(2, [0xC3, 0xA9]));
    var one, two := [a], [a, b];
    assert one[..|one| - 1] == [] && two[..|two| - 1] == one;
    assert [0xC3][0..] == [0xC3] && [0xC3, 0xA9][1..] == [0xA9];
    assert Unread(a.value, 0) == [0xC3] && Unread(b.value, 1) == [0xA9];
    assert FollowAll([]) == UNREAD;
    assert one[|one| - 1] == a;
    var t := FollowAll(one);
    assert t == Follow(FollowAll(one[..|one| - 1]), one[|one| - 1]);
    assert t.offset == Some(1) && t.delivered == ThroughJson([0xC3]);
    assert FollowAll(two) == Follow(t, b);
  }

  /** A character split between two ticks arrives as two replacement characters. */
  lemma SplitCharacterIsLost()
    ensures var views := ViewsOf(HALF_WRITTEN, "plan.log");
            && OnlyGrows(views) && views != []
            && views[|views| - 1].value.content == [0xC3, 0xA9] && ValidUtf8([0xC3, 0xA9])
            && !OnBoundaries(views)
            && Delivered(TickedAll(HALF_WRITTEN).sent, "plan.log") == REPLACEMENT + REPLACEMENT
  {
    hide ViewsOf, TickedAll, FollowAll, ValidUtf8, ThroughJson, Delivered;
    HalfWrittenViews();
    HalfWrittenFollowed();
    HalvesThroughJson();
    TailOfTicks(HALF_WRITTEN, "plan.log");
    var views := ViewsOf(HALF_WRITTEN, "plan.log");
    assert OnlyGrows(views);
    assert [0xC3, 0xA9][..1] == [0xC3];
    assert !IsBoundary([0xC3, 0xA9], |views[0].value.content|);
  }

  // ---------- Files that start over ----------

  // What comes next is read from its start: nothing is stored for the file, or it is shorter than that.
  predicate StartsOver(t: Tail, first: FileView) {
    t.offset.None? || first.size < t.offset.value || t.offset.value == 0
  }

  lemma FollowsAlike(a: Tail, b: Tail, before: Bytes, view: Option<FileView>)
    requires OffsetOf(a) == OffsetOf(b) && a.read == before + b.read
    ensures Follow(a, view).offset == Follow(b, view).offset && Follow(a, view).read == before + Follow(b, view).read
  {
    hide ThroughJson, Unread;
    if view.Some? {
      var chunk := Unread(view.value, OffsetOf(a));
      assert (before + b.read) + chunk == before + (b.read + chunk);
    }
  }

  lemma FirstAnew(t: Tail, first: FileView)
    requires StartsOver(t, first)
    ensures Follow(t, Some(first)).offset == Follow(UNREAD, Some(first)).offset
    ensures Follow(t, Some(first)).read == t.read + Follow(UNREAD, Some(first)).read
  {
    hide ThroughJson;
    var chunk := Unread(first, 0);
    assert t.read + ([] + chunk) == t.read + chunk;
  }

  lemma {:induction false} FollowsAnew(t: Tail, views: seq<Option<FileView>>)
    requires views != [] && views[0].Some? && StartsOver(t, views[0].value)
    ensures FollowFrom(t, views).offset == FollowAll(views).offset
    ensures FollowFrom(t, views).read == t.read + FollowAll(views).read
  {
    hide Follow, StartsOver;
    var n := |views|;
    if n == 1 {
      FirstAnew(t, views[0].value);
      assert views[..0] == [];
    } else {
      FollowsAnew(t, views[..n - 1]);
      FollowsAlike(FollowFrom(t, views[..n - 1]), FollowAll(views[..n - 1]), t.read, views[n - 1]);
    }
  }

  lemma {:induction false} ViewsAppend(samples: seq<Sample>, more: seq<Sample>, path: Path)
    ensures ViewsOf(samples + more, path) == ViewsOf(samples, path) + ViewsOf(more, path)
  {
    if more == [] {
      assert samples + more == samples;
    } else {
      hide ViewsIn;
      var all := samples + more;
      assert all[..|all| - 1] == samples + more[..|more| - 1] && all[|all| - 1] == more[|more| - 1];
      ViewsAppend(samples, more[..|more| - 1], path);
    }
  }

  lemma FirstIsThere(views: seq<Option<FileView>>)
    requires OnlyGrows(views) && views != []
    ensures views[0].Some?
  {
  }

  /** After a file has vanished or become shorter than what was read of it, the file found under its
      name, as long as it only grows, is read from its start: what the further ticks read is exactly
      its content. */
  lemma NewFileIsReadWhole(samples: seq<Sample>, more: seq<Sample>, path: Path)
    requires OnlyGrows(ViewsOf(more, path)) && ViewsOf(more, path) != []
    requires var stored := TickedAll(samples).offsets;
             path !in stored || ViewsOf(more, path)[0].value.size < stored[path]
    ensures var views := ViewsOf(more, path);
            && ReadOf(TickedAll(samples + more).sent, path) ==
               ReadOf(TickedAll(samples).sent, path) + views[|views| - 1].value.content
            && path in TickedAll(samples + more).offsets
            && TickedAll(samples + more).offsets[path] == |views[|views| - 1].value.content|
  {
    hide ReadOf, Delivered, OnlyGrows, TickedAll, ViewsOf, FollowAll, FollowFrom;
    var before, views := ViewsOf(samples, path), ViewsOf(more, path);
    TailOfTicks(samples, path);
    TailOfTicks(samples + more, path);
    ViewsAppend(samples, more, path);
    FollowFromStart(before);
    FollowFromStart(before + views);
    FollowFromAppend(UNREAD, before, views);
    FirstIsThere(views);
    FollowsAnew(TailOf(TickedAll(samples), path), views);
    FollowsGrowth(views);
  }

  /** Nothing is stored for a file that was gone when a tick last listed it. */
  lemma VanishedIsForgotten(samples: seq<Sample>, path: Path)
    requires var views := ViewsOf(samples, path); views != [] && views[|views| - 1].None?
    ensures path !in TickedAll(samples).offsets
  {
    hide ReadOf, Delivered, TickedAll, ViewsOf;
    TailOfTicks(samples, path);
  }

  // ---------- The messages of one tick ----------

  // The log messages a listing calls for: for each file in turn, what has not been read of it.
  function LogsOf(st: Stream, files: seq<Listed>): seq<Message> {
    if files == [] then []
    else
      var last := files[|files| - 1];
      var chunk := if last.view.Some? then Unread(last.view.value, OffsetOf(TailOf(st, last.path))) else [];
      LogsOf(st, files[..|files| - 1]) + (if chunk == [] then [] else [Log(last.path, chunk)])
  }

  predicate DistinctPaths(files: seq<Listed>) {
    forall i, j :: 0 <= i < j < |files| ==> files[i].path != files[j].path
  }

  lemma {:induction false} NotListed(files: seq<Listed>, path: Path)
    requires forall i :: 0 <= i < |files| ==> files[i].path != path
    ensures ViewsIn(files, path) == []
  {
    if files != [] {
      NotListed(files[..|files| - 1], path);
    }
  }

  lemma OneMoreFile(st: Stream, init: seq<Listed>, last: Listed)
    requires forall i :: 0 <= i < |init| ==> init[i].path != last.path
    ensures FollowFiles(st, init + [last]).sent ==
            FollowFiles(st, init).sent + (LogsOf(st, [last]))
  {
    hide Unread, ViewsIn, TailOf, FollowFrom, ReadOf, Delivered;
    NotListed(init, last.path);
    FollowFilesTail(st, init, last.path);
    SameOffset(st, FollowFiles(st, init), last.path);
    assert (init + [last])[..|init|] == init && [last][..0] == [];
  }

  lemma SameOffset(st: Stream, st': Stream, path: Path)
    requires TailOf(st', path) == FollowFrom(TailOf(st, path), [])
    ensures TailOf(st', path) == TailOf(st, path)
  {
    hide TailOf;
  }

  lemma LogsOfOneMore(st: Stream, init: seq<Listed>, last: Listed)
    ensures LogsOf(st, init + [last]) == LogsOf(st, init) + LogsOf(st, [last])
  {
    hide Unread, TailOf;
    assert (init + [last])[..|init|] == init && [last][..0] == [];
  }

  lemma {:induction false} FilesInTurn(st: Stream, files: seq<Listed>)
    requires DistinctPaths(files)
    ensures FollowFiles(st, files).sent == st.sent + LogsOf(st, files)
  {
    if files == [] {
      assert st.sent + [] == st.sent;
    } else {
      var init, last := files[..|files| - 1], files[|files| - 1];
      assert files == init + [last];
      hide FollowFiles, LogsOf;
      FilesInTurn(st, init);
      OneMoreFile(st, init, last);
      LogsOfOneMore(st, init, last);
      assert st.sent + (LogsOf(st, init) + LogsOf(st, [last])) == (st.sent + LogsOf(st, init)) + LogsOf(st, [last]);
    }
  }

  /** A tick sends the status first, if it has changed, and then for each listed file in turn what has
      not been sent of it. */
  lemma TickSendsInOrder(st: Stream, status: string, error: string, files: seq<Listed>)
    requires DistinctPaths(files)
    ensures Ticked(st, Found(status, error, files)).sent ==
            st.sent + (if status != st.lastStatus || error != st.lastError then [Status(status, error)] else [])
            + LogsOf(SendStatus(st, status, error), files)
    ensures forall path :: OffsetOf(TailOf(SendStatus(st, status, error), path)) == OffsetOf(TailOf(st, path))
  {
    hide LogsOf, FollowFiles;
    FilesInTurn(SendStatus(st, status, error), files);
  }

  // ---------- Status messages ----------

  datatype Pair = Pair(status: string, error: string)

  function PairsOf(samples: seq<Sample>): seq<Pair> {
    if samples == [] then []
    else
      var last := samples[|samples| - 1];
      PairsOf(samples[..|samples| - 1]) + (if last.Found? then [Pair(last.status, last.error)] else [])
  }

  // A list without the elements that repeat their predecessor.
  function WithoutRepeats(pairs: seq<Pair>): seq<Pair> {
    if |pairs| <= 1 then pairs
    else
      var n := |pairs|;
      WithoutRepeats(pairs[..n - 1]) + (if pairs[n - 1] != pairs[n - 2] then [pairs[n - 1]] else [])
  }

  function StatusesIn(sent: seq<Message>): seq<Pair> {
    if sent == [] then []
    else
      var last := sent[|sent| - 1];
      StatusesIn(sent[..|sent| - 1]) + (if last.Status? then [Pair(last.status, last.error)] else [])
  }

  lemma StatusesAppend(sent: seq<Message>, m: Message)
    ensures StatusesIn(sent + [m]) == StatusesIn(sent) + (if m.Status? then [Pair(m.status, m.error)] else [])
  {
    assert (sent + [m])[..|sent|] == sent;
  }

  lemma {:induction false} FilesSendNoStatus(st: Stream, files: seq<Listed>)
    ensures var st' := FollowFiles(st, files);
            StatusesIn(st'.sent) == StatusesIn(st.sent) && st'.lastStatus == st.lastStatus && st'.lastError == st.lastError
  {
    if files != [] {
      hide Unread, StartOf, OffsetOf, TailOf;
      var init, last := files[..|files| - 1], files[|files| - 1];
      FilesSendNoStatus(st, init);
      var before := FollowFiles(st, init);
      if last.view.Some? {
        StatusesAppend(before.sent, Log(last.path, Unread(last.view.value, OffsetOf(TailOf(before, last.path)))));
        assert StatusesIn(before.sent) + [] == StatusesIn(before.sent);
      }
    }
  }

  // What the stream remembers of the last sample; nothing before the first.
  function Remembered(pairs: seq<Pair>): Pair {
    if pairs == [] then Pair("", "") else pairs[|pairs| - 1]
  }

  /** The status messages sent are the sampled (status, error) pairs with consecutive duplicates
      removed: a job's status is never empty. */
  lemma {:induction false} StatusesAreTheChanges(samples: seq<Sample>)
    requires forall i :: 0 <= i < |samples| ==> samples[i].Found? ==> samples[i].status != ""
    ensures var st := TickedAll(samples);
            && StatusesIn(st.sent) == WithoutRepeats(PairsOf(samples))
            && Pair(st.lastStatus, st.lastError) == Remembered(PairsOf(samples))
    ensures forall p :: p in PairsOf(samples) ==> p.status != ""
  {
    if samples != [] {
      hide FollowFiles;
      var init, last := samples[..|samples| - 1], samples[|samples| - 1];
      StatusesAreTheChanges(init);
      var st, pairs := TickedAll(init), PairsOf(init);
      if last.Found? {
        var pair := Pair(last.status, last.error);
        FilesSendNoStatus(SendStatus(st, last.status, last.error), last.files);
        StatusesAppend(st.sent, Status(last.status, last.error));
        RepeatsAppend(pairs, pair);
      } else {
        assert PairsOf(samples) == pairs;
      }
    }
  }

  lemma RepeatsAppend(pairs: seq<Pair>, pair: Pair)
    requires pair.status != ""
    ensures WithoutRepeats(pairs + [pair]) == WithoutRepeats(pairs) + (if pair != Remembered(pairs) then [pair] else [])
  {
    assert (pairs + [pair])[..|pairs|] == pairs;
  }

  // ---------- The code ----------

  class JobStream {
    var jobID: nat
    var offsets: map<Path, nat>
    var lastStatus: string
    var lastError: string
    var sent: seq<Message>          // the messages written to the connection since the subscription

    constructor ()
      ensures State() == SUBSCRIBED
    {
      jobID, offsets, lastStatus, lastError, sent := 0, map[], "", "", [];
    }

    function State(): Stream
      reads this
    {
      Stream(offsets, lastStatus, lastError, sent)
    }

    method Subscribe(id: nat)
      modifies this
      ensures jobID == id && State() == SUBSCRIBED
    {
      jobID := id;
      offsets := map[];
      lastStatus := "";
      lastError := "";
      sent := [];
    }

    // readLogChunks on a file that could be opened.
    static method ReadLogChunks(view: FileView, from: nat) returns (next: nat, chunks: seq<Bytes>)
      ensures next == StartOf(view, from) + |Unread(view, from)|
      ensures chunks == if Unread(view, from) == [] then [] else [Unread(view, from)]
    {
      var offset := from;
      if view.size < offset { offset := 0; }
      var payload := if offset <= |view.content| then view.content[offset..] else [];
      if |payload| == 0 { return offset, []; }
      next, chunks := offset + |payload|, [payload];
    }

    // One file of a tick.
    method SendChunks(file: Listed)
      modifies this
      ensures State() == FollowFile(old(State()), file) && jobID == old(jobID)
    {
      hide Unread, StartOf;
      if file.view.None? {
        offsets := offsets - {file.path};
        return;
      }
      var next, chunks := ReadLogChunks(file.view.value, if file.path in offsets then offsets[file.path] else 0);
      offsets := offsets[file.path := next];
      for i := 0 to |chunks|
        invariant offsets == old(offsets)[file.path := next] && lastStatus == old(lastStatus) && lastError == old(lastError)
        invariant sent == if i == 0 then old(sent) else old(sent) + [Log(file.path, chunks[0])]
        invariant jobID == old(jobID)
      {
        sent := sent + [Log(file.path, chunks[i])];
      }
    }

    /** One tick; false when the job is missing. */
    method Tick(sample: Sample) returns (found: bool)
      modifies this
      ensures found == sample.Found?
      ensures State() == Ticked(old(State()), sample) && jobID == old(jobID)
    {
      hide FollowFile;
      if sample.Missing? { return false; }
      if sample.status != lastStatus || sample.error != lastError {
        lastStatus := sample.status;
        lastError := sample.error;
        sent := sent + [Status(sample.status, sample.error)];
      }
      ghost var before := State();
      assert before == SendStatus(old(State()), sample.status, sample.error);
      for i := 0 to |sample.files|
        invariant State() == FollowFiles(before, sample.files[..i]) && jobID == old(jobID)
      {
        assert sample.files[..i + 1][..i] == sample.files[..i];
        SendChunks(sample.files[i]);
      }
      assert sample.files[..|sample.files|] == sample.files;
      found := true;
    }

    /** readLogTail: the last bytes of a file, with where they start. */
    static method ReadLogTail(view: FileView, maxBytes: int) returns (offset: nat, payload: Bytes, truncated: bool)
      requires view.size <= |view.content|
      ensures offset <= |view.content| && payload == view.content[offset..]
      ensures truncated <==> offset > 0
      ensures var limit := if maxBytes <= 0 then 65536 else maxBytes;
              |payload| - (|view.content| - view.size) == if truncated then limit else view.size
    {
      var limit := if maxBytes <= 0 then 64 * 1024 else maxBytes;
      offset, truncated := 0, false;
      if view.size > limit {
        offset := view.size - limit;
        truncated := true;
      }
      payload := view.content[offset..];
    }
  }
}
