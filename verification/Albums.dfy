/**
 * The album sender of `apiwrap.cpp`, on the ordinary route. An album starts with an item for every file; each file is
 * prepared and gets its message, or cannot be prepared and leaves the album; messages are uploaded or cancelled in
 * any order, and the album is handed over when an upload or a cancellation leaves none outstanding.
 */
module Albums {
  import opened Text

  type GroupId = nat

  /** A file to send and the message it becomes go by one number. */
  type MsgId = nat

  /** What was uploaded, with the caption and the random id it goes out under. */
  datatype Media = Media(content: nat, caption: string, randomId: nat)

  /** `message` once the file is prepared and the item has its message. */
  datatype Item = Item(id: MsgId, message: bool, randomId: nat, media: Option<Media>)

  datatype Album = Album(items: seq<Item>, sent: bool)

  datatype Upload = Upload(content: nat, randomId: nat)

  /** One send of an album; a list of one goes out as a single media. */
  datatype Handover = Handover(group: GroupId, medias: seq<Media>, single: bool)

  /** `texts` are the captions of the messages; the rest is history: the items an album began with, the captions
      their messages were made with, which became messages, were uploaded or are gone, what was handed over,
      and whose captions the first item has gathered. */
  datatype State = State(
    albums: map<GroupId, Album>, texts: map<MsgId, string>,
    order: map<GroupId, seq<MsgId>>, captions: map<MsgId, string>, prepared: set<MsgId>,
    uploaded: map<MsgId, Upload>, gone: set<MsgId>, handed: seq<Handover>, gathered: map<GroupId, seq<MsgId>>)

  const START: State := State(map[], map[], map[], map[], {}, map[], {}, [], map[])

  // ----- what each handler does

  /** The place of an item, or their number. */
  function Find(items: seq<Item>, m: MsgId): (i: nat)
    ensures i <= |items|
    ensures i < |items| ==> items[i].id == m
    ensures forall j :: 0 <= j < i ==> items[j].id != m
  {
    if items == [] || items[0].id == m then 0
    else
      assert forall j :: 0 < j < |items| ==> items[j] == items[1..][j - 1];
      1 + Find(items[1..], m)
  }

  predicate Holds(items: seq<Item>, m: MsgId) {
    Find(items, m) < |items|
  }

  function TextOf(texts: map<MsgId, string>, m: MsgId): string {
    if m in texts then texts[m] else ""
  }

  predicate Filled(items: seq<Item>) {
    forall i :: 0 <= i < |items| ==> items[i].media.Some?
  }

  /** The medias of the first `k` items. */
  function Medias(items: seq<Item>, k: nat): seq<Media>
    requires k <= |items|
  {
    if k == 0 then []
    else Medias(items, k - 1) + if items[k - 1].media.Some? then [items[k - 1].media.value] else []
  }

  /** `sendAlbumIfReady` */
  function IfReady(s: State, g: GroupId): State {
    if g !in s.albums || s.albums[g].sent then s
    else
      var items := s.albums[g].items;
      if items == [] then s.(albums := s.albums - {g})
      else if !Filled(items) then s
      else
        var single := |items| < 2;
        s.(albums := if single then s.albums - {g} else s.albums[g := Album(items, true)],
           handed := s.handed + [Handover(g, Medias(items, |items|), single)])
  }

  /** The file of an item is prepared, and the item gets its message and caption. */
  function Prepare(s: State, g: GroupId, m: MsgId, caption: string): State {
    var t := s.(texts := s.texts[m := Trim(caption)], captions := s.captions[m := Trim(caption)],
                prepared := s.prepared + {m});
    if g !in s.albums || !Holds(s.albums[g].items, m) then t
    else
      var a := s.albums[g];
      var i := Find(a.items, m);
      t.(albums := s.albums[g := a.(items := a.items[i := a.items[i].(message := true)])])
  }

  function FillAt(items: seq<Item>, i: nat, texts: map<MsgId, string>, u: Upload): seq<Item>
    requires i < |items|
  {
    var m := items[i].id;
    items[i := items[i].(randomId := u.randomId,
                         media := Some(Media(u.content, Trim(TextOf(texts, m)), u.randomId)))]
  }

  function Fill(s: State, g: GroupId, m: MsgId, u: Upload): State {
    if g !in s.albums || !Holds(s.albums[g].items, m) then s
    else
      var a := s.albums[g];
      s.(albums := s.albums[g := a.(items := FillAt(a.items, Find(a.items, m), s.texts, u))],
         uploaded := s.uploaded[m := u])
  }

  /** The new first item's caption, with that of the removed one after it. */
  function Moved(first: string, removed: string): string {
    if first == "" then removed else first + "\n" + removed
  }

  function Refreshed(item: Item, texts: map<MsgId, string>): Item {
    if item.media.None? then item
    else item.(media := Some(item.media.value.(caption := Trim(TextOf(texts, item.id)))))
  }

  function Without(items: seq<Item>, i: nat): seq<Item>
    requires i < |items|
  {
    items[..i] + items[i + 1..]
  }

  /** `removeItem`: when the first of several goes, its caption moves to the next, if that is a message yet. */
  function Remove(s: State, g: GroupId, m: MsgId): State {
    var t := s.(gone := s.gone + {m});
    if g !in s.albums || !Holds(s.albums[g].items, m) then t
    else
      var a := s.albums[g];
      var rest := Without(a.items, Find(a.items, m));
      if a.items[0].id != m || rest == [] then t.(albums := s.albums[g := a.(items := rest)])
      else if !rest[0].message then
        t.(albums := s.albums[g := a.(items := rest)], gathered := s.gathered[g := [rest[0].id]])
      else
        var first := rest[0].id;
        var texts := s.texts[first := Moved(TextOf(s.texts, first), TextOf(s.texts, m))];
        t.(albums := s.albums[g := a.(items := rest[0 := Refreshed(rest[0], texts)])], texts := texts,
           gathered := s.gathered[g := [first] + (if g in s.gathered then s.gathered[g] else [])])
  }

  /** `removeTask`: the file cannot be prepared; the item goes, and that is all. */
  function Drop(s: State, g: GroupId, m: MsgId): State {
    var t := s.(gone := s.gone + {m});
    if g !in s.albums || !Holds(s.albums[g].items, m) then t
    else
      var a := s.albums[g];
      var rest := Without(a.items, Find(a.items, m));
      t.(albums := s.albums[g := a.(items := rest)],
         gathered := if a.items[0].id == m && rest != [] then s.gathered[g := [rest[0].id]] else s.gathered)
  }

  datatype Event =
    | Began(group: GroupId, order: seq<MsgId>)
    | Prepared(group: GroupId, msg: MsgId, caption: string)
    | Unprepared(group: GroupId, msg: MsgId)
    | Uploaded(group: GroupId, msg: MsgId, upload: Upload)
    | Cancelled(group: GroupId, msg: MsgId)
    | Over(group: GroupId)

  function Fresh(order: seq<MsgId>): (items: seq<Item>)
    ensures |items| == |order|
  {
    seq(|order|, i requires 0 <= i < |order| => Item(order[i], false, 0, None))
  }

  function Begin(s: State, g: GroupId, order: seq<MsgId>): State
    requires |order| > 0
  {
    s.(albums := s.albums[g := Album(Fresh(order), false)],
       order := s.order[g := order], gathered := s.gathered[g := [order[0]]])
  }

  /** The album that went out has its answer. */
  function Finish(s: State, g: GroupId): State {
    s.(albums := s.albums - {g})
  }

  predicate Distinct(order: seq<MsgId>) {
    forall i, j :: 0 <= i < j < |order| ==> order[i] != order[j]
  }

  /** Nothing was heard of this item. */
  ghost predicate Unknown(s: State, m: MsgId) {
    && m !in s.texts && m !in s.captions && m !in s.prepared && m !in s.uploaded && m !in s.gone
    && forall h :: h in s.order ==> m !in s.order[h]
  }

  /** Items and groups are new when an album begins; the file of an item is prepared or cannot be; a message that
      is not gone is cancelled at any time, or is uploaded if it was not; an album that went out has its done or
      fail answer, `Over`. */
  ghost predicate Enabled(s: State, e: Event) {
    match e
    case Began(g, order) =>
      g !in s.order && |order| > 0 && Distinct(order) && forall i :: 0 <= i < |order| ==> Unknown(s, order[i])
    case Prepared(g, m, _) => g in s.order && m in s.order[g] && m !in s.prepared && m !in s.gone
    case Unprepared(g, m) => g in s.order && m in s.order[g] && m !in s.prepared && m !in s.gone
    case Uploaded(g, m, _) => g in s.order && m in s.order[g] && m in s.prepared - s.gone && m !in s.uploaded
    case Cancelled(g, m) => g in s.order && m in s.order[g] && m in s.prepared - s.gone
    case Over(g) => g in s.albums && s.albums[g].sent
  }

  /** What the source asserts when an event comes in. */
  predicate Asserted(s: State, e: Event) {
    match e
    case Prepared(g, m, _) => g in s.albums && Holds(s.albums[g].items, m)
    case Unprepared(g, m) => g in s.albums && Holds(s.albums[g].items, m)
    case Uploaded(g, m, _) =>
      && g in s.albums && Holds(s.albums[g].items, m)
      && s.albums[g].items[Find(s.albums[g].items, m)].message
      && s.albums[g].items[Find(s.albums[g].items, m)].media.None?
    case Cancelled(g, m) =>
      g in s.albums ==>
        && Holds(s.albums[g].items, m)
        && s.albums[g].items[Find(s.albums[g].items, m)].message
    case _ => true
  }

  ghost function Step(s: State, e: Event): State
    requires Enabled(s, e)
  {
    match e
    case Began(g, order) => Begin(s, g, order)
    case Prepared(g, m, caption) => Prepare(s, g, m, caption)
    case Unprepared(g, m) => Drop(s, g, m)
    case Uploaded(g, m, u) => IfReady(Fill(s, g, m, u), g)
    case Cancelled(g, m) => IfReady(Remove(s, g, m), g)
    case Over(g) => Finish(s, g)
  }

  // ----- the object itself

  class Sender {
    var sendingAlbums: map<GroupId, Album>
    var texts: map<MsgId, string>
    ghost var order: map<GroupId, seq<MsgId>>
    ghost var captions: map<MsgId, string>
    ghost var prepared: set<MsgId>
    ghost var uploaded: map<MsgId, Upload>
    ghost var gone: set<MsgId>
    ghost var handed: seq<Handover>
    ghost var gathered: map<GroupId, seq<MsgId>>

    ghost function Now(): State reads this {
      State(sendingAlbums, texts, order, captions, prepared, uploaded, gone, handed, gathered)
    }

    constructor ()
      ensures Now() == START
    {
      sendingAlbums, texts := map[], map[];
      order, captions, prepared, uploaded, gone, handed, gathered := map[], map[], {}, map[], {}, [], map[];
    }

    /** A new album with an item for every file to prepare. */
    method BeginAlbum(g: GroupId, files: seq<MsgId>)
      requires RunInv(Now()) && Enabled(Now(), Began(g, files))
      modifies this
      ensures RunInv(Now()) && Now() == Step(old(Now()), Began(g, files))
    {
      hide RunInv;
      StepKeeps(Now(), Began(g, files));
      var items: seq<Item> := [];
      for k := 0 to |files|
        invariant items == Fresh(files[..k])
      {
        items := items + [Item(files[k], false, 0, None)];
      }
      assert files[..|files|] == files;
      sendingAlbums := sendingAlbums[g := Album(items, false)];
      order, gathered := order[g := files], gathered[g := [files[0]]];
    }

    static method FindAlbumItem(items: seq<Item>, m: MsgId) returns (i: nat)
      ensures i == Find(items, m)
    {
      i := 0;
      while i < |items| && items[i].id != m
        invariant i <= |items| && forall j :: 0 <= j < i ==> items[j].id != m
      {
        i := i + 1;
      }
    }

    /** The item of a prepared file gets its message. */
    method AddLocalMessage(g: GroupId, m: MsgId, caption: string)
      requires RunInv(Now()) && Enabled(Now(), Prepared(g, m, caption))
      modifies this
      ensures RunInv(Now()) && Now() == Step(old(Now()), Prepared(g, m, caption))
    {
      hide RunInv;
      AssertionsHold(Now(), Prepared(g, m, caption));
      StepKeeps(Now(), Prepared(g, m, caption));
      var album := sendingAlbums[g];
      var i := FindAlbumItem(album.items, m);
      var items := album.items[i := album.items[i].(message := true)];
      sendingAlbums := sendingAlbums[g := album.(items := items)];
      texts, captions := texts[m := Trim(caption)], captions[m := Trim(caption)];
      prepared := prepared + {m};
    }

    method RemoveTask(g: GroupId, m: MsgId)
      requires RunInv(Now()) && Enabled(Now(), Unprepared(g, m))
      modifies this
      ensures RunInv(Now()) && Now() == Step(old(Now()), Unprepared(g, m))
    {
      hide RunInv;
      AssertionsHold(Now(), Unprepared(g, m));
      StepKeeps(Now(), Unprepared(g, m));
      var album := sendingAlbums[g];
      var i := FindAlbumItem(album.items, m);
      var items := album.items[..i] + album.items[i + 1..];
      sendingAlbums := sendingAlbums[g := album.(items := items)];
      gone := gone + {m};
      if i == 0 && items != [] {
        gathered := gathered[g := [items[0].id]];
      }
    }

    method SendAlbumWithUploaded(g: GroupId, m: MsgId, content: nat, randomId: nat)
      requires RunInv(Now()) && Enabled(Now(), Uploaded(g, m, Upload(content, randomId)))
      modifies this
      ensures RunInv(Now()) && Now() == Step(old(Now()), Uploaded(g, m, Upload(content, randomId)))
    {
      hide RunInv;
      AssertionsHold(Now(), Uploaded(g, m, Upload(content, randomId)));
      StepKeeps(Now(), Uploaded(g, m, Upload(content, randomId)));
      assert g in sendingAlbums;
      var album := sendingAlbums[g];
      var i := FindAlbumItem(album.items, m);
      assert album.items[i].media.None?;
      var media := Media(content, Trim(TextOf(texts, m)), randomId);
      var items := album.items[i := album.items[i].(randomId := randomId, media := Some(media))];
      sendingAlbums := sendingAlbums[g := album.(items := items)];
      uploaded := uploaded[m := Upload(content, randomId)];
      SendAlbumIfReady(g);
    }

    /** An album that is gone already is left alone. */
    method SendAlbumWithCancelled(g: GroupId, m: MsgId)
      requires RunInv(Now()) && Enabled(Now(), Cancelled(g, m))
      modifies this
      ensures RunInv(Now()) && Now() == Step(old(Now()), Cancelled(g, m))
    {
      hide RunInv, Find, Moved, Refreshed, Without, Filled, Medias;
      AssertionsHold(Now(), Cancelled(g, m));
      StepKeeps(Now(), Cancelled(g, m));
      if g !in sendingAlbums {
        gone := gone + {m};
        return;
      }
      RemoveItem(g, m);
      SendAlbumIfReady(g);
    }

    method RemoveItem(g: GroupId, m: MsgId)
      requires g in sendingAlbums && Holds(sendingAlbums[g].items, m)
      modifies this
      ensures Now() == Remove(old(Now()), g, m)
    {
      var album := sendingAlbums[g];
      var i := FindAlbumItem(album.items, m);
      var moveCaption := |album.items| > 1 && i == 0;
      var items := album.items[..i] + album.items[i + 1..];
      if moveCaption {
        var first := items[0].id;
        if items[0].message {
          var caption, firstCaption := TextOf(texts, m), TextOf(texts, first);
          texts := texts[first := if firstCaption == "" then caption else firstCaption + "\n" + caption];
          if items[0].media.Some? {
            var media := items[0].media.value.(caption := Trim(TextOf(texts, first)));
            items := items[0 := items[0].(media := Some(media))];
          } else {
            assert items == items[0 := Refreshed(items[0], texts)];
          }
          gathered := gathered[g := [first] + (if g in gathered then gathered[g] else [])];
        } else {
          gathered := gathered[g := [first]];
        }
      }
      sendingAlbums := sendingAlbums[g := album.(items := items)];
      gone := gone + {m};
    }

    method SendAlbumIfReady(g: GroupId)
      requires g in sendingAlbums
      modifies this
      ensures Now() == IfReady(old(Now()), g)
    {
      var album := sendingAlbums[g];
      if album.sent { return; }
      if album.items == [] {
        sendingAlbums := sendingAlbums - {g};
        return;
      }
      var medias: seq<Media> := [];
      for k := 0 to |album.items|
        invariant forall i :: 0 <= i < k ==> album.items[i].media.Some?
        invariant medias == Medias(album.items, k) && |medias| == k
      {
        if album.items[k].media.None? { return; }
        medias := medias + [album.items[k].media.value];
      }
      if |medias| < 2 {
        handed := handed + [Handover(g, medias, true)];
        sendingAlbums := sendingAlbums - {g};
        return;
      }
      sendingAlbums := sendingAlbums[g := album.(sent := true)];
      handed := handed + [Handover(g, medias, false)];
    }
  }

  // ----- what is left of an album

  /** The first `k` items that are not gone, in album order. */
  function Left(order: seq<MsgId>, gone: set<MsgId>, k: nat): seq<MsgId>
    requires k <= |order|
  {
    if k == 0 then []
    else Left(order, gone, k - 1) + if order[k - 1] in gone then [] else [order[k - 1]]
  }

  function Remaining(s: State, g: GroupId): seq<MsgId> {
    if g in s.order then Left(s.order[g], s.gone, |s.order[g]|) else []
  }

  predicate AllUploaded(s: State, ms: seq<MsgId>) {
    forall i :: 0 <= i < |ms| ==> ms[i] in s.uploaded
  }

  /** Nothing is outstanding, and something is left. */
  predicate Ready(s: State, g: GroupId) {
    Remaining(s, g) != [] && AllUploaded(s, Remaining(s, g))
  }

  lemma {:induction false} LeftMember(order: seq<MsgId>, gone: set<MsgId>, k: nat, m: MsgId)
    requires k <= |order|
    ensures m in Left(order, gone, k) <==> m in order[..k] && m !in gone
  {
    if k > 0 {
      LeftMember(order, gone, k - 1, m);
      assert order[..k] == order[..k - 1] + [order[k - 1]];
    }
  }

  lemma {:induction false} LeftDistinct(order: seq<MsgId>, gone: set<MsgId>, k: nat)
    requires k <= |order| && Distinct(order)
    ensures Distinct(Left(order, gone, k))
  {
    if k > 0 {
      LeftDistinct(order, gone, k - 1);
      LeftMember(order, gone, k - 1, order[k - 1]);
      var before := Left(order, gone, k - 1);
      assert order[k - 1] !in before;
    }
  }

  function Cut(ms: seq<MsgId>, i: nat): seq<MsgId>
    requires i < |ms|
  {
    ms[..i] + ms[i + 1..]
  }

  lemma {:induction false} LeftSame(order: seq<MsgId>, gone: set<MsgId>, m: MsgId, k: nat)
    requires k <= |order| && m !in order[..k]
    ensures Left(order, gone + {m}, k) == Left(order, gone, k)
  {
    if k > 0 {
      assert order[..k] == order[..k - 1] + [order[k - 1]];
      LeftSame(order, gone, m, k - 1);
    }
  }

  lemma CutPush(ms: seq<MsgId>, x: MsgId, i: nat)
    requires i <= |ms|
    ensures Cut(ms + [x], i) == if i < |ms| then Cut(ms, i) + [x] else ms
  {
  }

  lemma {:induction false} LeftCut(order: seq<MsgId>, gone: set<MsgId>, k: nat, i: nat)
    requires k <= |order| && Distinct(order) && i < |Left(order, gone, k)|
    ensures var ms := Left(order, gone, k);
      Left(order, gone + {ms[i]}, k) == Cut(ms, i)
  {
    hide Cut;
    var ms := Left(order, gone, k);
    var before, last := Left(order, gone, k - 1), order[k - 1];
    if i < |before| {
      LeftCut(order, gone, k - 1, i);
      LeftMember(order, gone, k - 1, ms[i]);
      assert ms[i] == before[i] != last;
      if last in gone {
        assert ms == before;
      } else {
        CutPush(before, last, i);
      }
    } else {
      assert ms[i] == last && ms == before + [last];
      CutPush(before, last, i);
      LeftSame(order, gone, last, k - 1);
    }
  }

  // ----- the invariant

  function ItemFor(s: State, m: MsgId): Item {
    if m in s.uploaded then
      var u := s.uploaded[m];
      Item(m, m in s.prepared, u.randomId, Some(Media(u.content, Trim(TextOf(s.texts, m)), u.randomId)))
    else Item(m, m in s.prepared, 0, None)
  }

  predicate Mirror(s: State, items: seq<Item>, ms: seq<MsgId>) {
    |items| == |ms| && forall i :: 0 <= i < |ms| ==> items[i] == ItemFor(s, ms[i])
  }

  /** The album holds what is left of it, each item with its media once that was uploaded. */
  predicate Mirrors(s: State, g: GroupId) {
    g in s.albums && Mirror(s, s.albums[g].items, Remaining(s, g))
  }

  ghost predicate Handed(s: State, g: GroupId) {
    exists i :: 0 <= i < |s.handed| && s.handed[i].group == g
  }

  /** An item without a message has no caption and was not uploaded. */
  predicate Silent(s: State, m: MsgId) {
    m !in s.prepared ==> m !in s.uploaded && TextOf(s.texts, m) == "" && TextOf(s.captions, m) == ""
  }

  predicate AllSilent(s: State, ms: seq<MsgId>) {
    forall i :: 0 <= i < |ms| ==> Silent(s, ms[i])
  }

  ghost predicate GroupInv(s: State, g: GroupId) {
    && g in s.order && Distinct(s.order[g]) && AllSilent(s, s.order[g])
    && (g in s.albums ==> Mirrors(s, g) && (s.albums[g].sent <==> Handed(s, g)))
    && (g !in s.albums ==> Handed(s, g) || Remaining(s, g) == [])
    && (Handed(s, g) ==> AllUploaded(s, Remaining(s, g)))
  }

  ghost predicate HandedOnce(s: State) {
    && (forall i, j :: 0 <= i < j < |s.handed| ==> s.handed[i].group != s.handed[j].group)
    && forall i :: 0 <= i < |s.handed| ==> s.handed[i].group in s.order
  }

  ghost predicate Separate(s: State) {
    && s.albums.Keys <= s.order.Keys
    && forall g, h, m :: g in s.order && h in s.order && m in s.order[g] && m in s.order[h] ==> g == h
  }

  /** The album is still there and was not sent, and nothing is outstanding. */
  predicate Behind(s: State, g: GroupId) {
    g in s.albums && !s.albums[g].sent && AllUploaded(s, Remaining(s, g))
  }

  // ----- every handler keeps the album in step

  lemma FindIs(s: State, g: GroupId, m: MsgId)
    requires Mirrors(s, g) && Holds(s.albums[g].items, m)
    ensures Find(s.albums[g].items, m) < |Remaining(s, g)| && Remaining(s, g)[Find(s.albums[g].items, m)] == m
  {
  }

  lemma SameRemaining(s: State, t: State, g: GroupId)
    requires t.order == s.order && t.gone == s.gone
    ensures Remaining(t, g) == Remaining(s, g)
  {
  }

  lemma RemainingCut(s: State, t: State, g: GroupId, i: nat)
    requires g in s.order && Distinct(s.order[g]) && t.order == s.order && i < |Remaining(s, g)|
    requires t.gone == s.gone + {Remaining(s, g)[i]}
    ensures Remaining(t, g) == Cut(Remaining(s, g), i)
  {
    LeftCut(s.order[g], s.gone, |s.order[g]|, i);
  }

  lemma RemainingDistinct(s: State, g: GroupId)
    requires g in s.order ==> Distinct(s.order[g])
    ensures Distinct(Remaining(s, g))
  {
    if g in s.order {
      LeftDistinct(s.order[g], s.gone, |s.order[g]|);
    }
  }

  lemma RemainingMember(s: State, g: GroupId, m: MsgId)
    requires g in s.order
    ensures m in Remaining(s, g) <==> m in s.order[g] && m !in s.gone
  {
    LeftMember(s.order[g], s.gone, |s.order[g]|, m);
    assert s.order[g][..|s.order[g]|] == s.order[g];
  }

  /** A change of one item alone. */
  lemma OneItemMirror(s: State, t: State, items: seq<Item>, ms: seq<MsgId>, i: nat)
    requires Mirror(s, items, ms) && Distinct(ms) && i < |ms|
    requires forall m :: m != ms[i] ==> ItemFor(t, m) == ItemFor(s, m)
    ensures Mirror(t, items[i := ItemFor(t, ms[i])], ms)
  {
    hide ItemFor;
    forall j | 0 <= j < |ms| ensures items[i := ItemFor(t, ms[i])][j] == ItemFor(t, ms[j]) {
      if j != i { assert ms[j] != ms[i]; }
    }
  }

  lemma FillMirrors(s: State, g: GroupId, m: MsgId, u: Upload)
    requires Mirrors(s, g) && Distinct(Remaining(s, g)) && Holds(s.albums[g].items, m)
    ensures Mirrors(Fill(s, g, m, u), g)
  {
    hide Remaining, Find, TextOf, Distinct, Trim;
    FindIs(s, g, m);
    var t := Fill(s, g, m, u);
    SameRemaining(s, t, g);
    var i := Find(s.albums[g].items, m);
    assert s.albums[g].items[i] == ItemFor(s, m);
    OneItemMirror(s, t, s.albums[g].items, Remaining(s, g), i);
  }

  lemma PrepareMirrors(s: State, g: GroupId, m: MsgId, caption: string)
    requires Mirrors(s, g) && Distinct(Remaining(s, g)) && Holds(s.albums[g].items, m) && m !in s.uploaded
    ensures Mirrors(Prepare(s, g, m, caption), g)
  {
    hide Remaining, Find, Distinct, Trim;
    FindIs(s, g, m);
    var t := Prepare(s, g, m, caption);
    SameRemaining(s, t, g);
    var i := Find(s.albums[g].items, m);
    assert s.albums[g].items[i] == ItemFor(s, m);
    OneItemMirror(s, t, s.albums[g].items, Remaining(s, g), i);
  }

  lemma CutMirror(s: State, items: seq<Item>, ms: seq<MsgId>, i: nat)
    requires Mirror(s, items, ms) && i < |ms|
    ensures Mirror(s, Without(items, i), Cut(ms, i))
  {
    hide ItemFor;
  }

  lemma MirrorSame(s: State, t: State, items: seq<Item>, ms: seq<MsgId>)
    requires Mirror(s, items, ms) && t.uploaded == s.uploaded && t.texts == s.texts && t.prepared == s.prepared
    ensures Mirror(t, items, ms)
  {
    assert forall m :: ItemFor(t, m) == ItemFor(s, m);
  }

  lemma MirrorSize(s: State, items: seq<Item>, ms: seq<MsgId>)
    requires Mirror(s, items, ms)
    ensures |items| == |ms|
  {
  }

  lemma MirrorHead(s: State, items: seq<Item>, ms: seq<MsgId>)
    requires Mirror(s, items, ms) && |items| > 0
    ensures |ms| > 0 && items[0] == ItemFor(s, ms[0]) && items[0].id == ms[0]
    ensures items[0].message <==> ms[0] in s.prepared
  {
  }

  /** A new caption of the first item shows in its media; the others do not change. */
  lemma RefreshMirror(s: State, t: State, items: seq<Item>, ms: seq<MsgId>)
    requires Mirror(s, items, ms) && Distinct(ms) && |ms| > 0
    requires t.uploaded == s.uploaded && t.prepared == s.prepared
    requires forall m :: m != ms[0] ==> TextOf(t.texts, m) == TextOf(s.texts, m)
    ensures Mirror(t, items[0 := Refreshed(items[0], t.texts)], ms)
  {
    hide TextOf, Trim, Distinct;
    assert items[0] == ItemFor(s, ms[0]);
    OneItemMirror(s, t, items, ms, 0);
  }

  /** What goes, by whatever handler, is cut out of what is left. */
  lemma GoneCuts(s: State, t: State, g: GroupId, m: MsgId)
    requires g in s.order && Distinct(s.order[g]) && Mirrors(s, g) && Holds(s.albums[g].items, m)
    requires t.order == s.order && t.gone == s.gone + {m}
    ensures var items, ms := s.albums[g].items, Remaining(s, g);
      && Find(items, m) < |ms| == |items| && ms[Find(items, m)] == m && items[Find(items, m)].id == m
      && Remaining(t, g) == Cut(ms, Find(items, m)) && Distinct(Remaining(t, g))
      && Mirror(s, Without(items, Find(items, m)), Remaining(t, g))
      && (items[0].id == m <==> Find(items, m) == 0)
  {
    hide Remaining, Find, Mirror, Distinct, Without, Cut;
    FindIs(s, g, m);
    var items, ms := s.albums[g].items, Remaining(s, g);
    MirrorSize(s, items, ms);
    RemainingCut(s, t, g, Find(items, m));
    CutMirror(s, items, ms, Find(items, m));
    RemainingDistinct(t, g);
  }

  lemma RemoveMirrors(s: State, g: GroupId, m: MsgId)
    requires g in s.order && Distinct(s.order[g]) && Mirrors(s, g) && Holds(s.albums[g].items, m)
    ensures Mirrors(Remove(s, g, m), g)
  {
    hide Remaining, Find, Mirror, Distinct, Moved, Refreshed, Without, Cut, ItemFor;
    var t := Remove(s, g, m);
    GoneCuts(s, t, g, m);
    var items := s.albums[g].items;
    var rest, ms := Without(items, Find(items, m)), Remaining(t, g);
    MirrorSize(s, rest, ms);
    if items[0].id == m && rest != [] && rest[0].message {
      MirrorHead(s, rest, ms);
      assert t.texts == s.texts[rest[0].id := Moved(TextOf(s.texts, rest[0].id), TextOf(s.texts, m))];
      RefreshMirror(s, t, rest, ms);
    } else {
      MirrorSame(s, t, rest, ms);
    }
  }

  lemma DropMirrors(s: State, g: GroupId, m: MsgId)
    requires g in s.order && Distinct(s.order[g]) && Mirrors(s, g) && Holds(s.albums[g].items, m)
    ensures Mirrors(Drop(s, g, m), g)
  {
    hide Remaining, Find, Mirror, Distinct, Without, Cut;
    var t := Drop(s, g, m);
    GoneCuts(s, t, g, m);
    MirrorSame(s, t, Without(s.albums[g].items, Find(s.albums[g].items, m)), Remaining(t, g));
  }

  // ----- handing over

  /** The list that goes out: every item with its upload, its random id and its caption. */
  function Planned(s: State, ms: seq<MsgId>, k: nat): seq<Media>
    requires k <= |ms| && AllUploaded(s, ms)
  {
    if k == 0 then []
    else
      var m := ms[k - 1];
      Planned(s, ms, k - 1) + [Media(s.uploaded[m].content, Trim(TextOf(s.texts, m)), s.uploaded[m].randomId)]
  }

  lemma FilledIffUploaded(s: State, items: seq<Item>, ms: seq<MsgId>)
    requires Mirror(s, items, ms)
    ensures Filled(items) <==> AllUploaded(s, ms)
  {
    if Filled(items) {
      forall i | 0 <= i < |ms| ensures ms[i] in s.uploaded { assert items[i].media.Some?; }
    } else {
      var i :| 0 <= i < |items| && items[i].media.None?;
      assert ms[i] !in s.uploaded;
    }
  }

  lemma {:induction false} MediasArePlanned(s: State, items: seq<Item>, ms: seq<MsgId>, k: nat)
    requires Mirror(s, items, ms) && AllUploaded(s, ms) && k <= |ms|
    ensures Medias(items, k) == Planned(s, ms, k)
  {
    if k > 0 {
      MediasArePlanned(s, items, ms, k - 1);
      assert items[k - 1] == ItemFor(s, ms[k - 1]) && ms[k - 1] in s.uploaded;
    }
  }

  /** Ready means handed over, now or before, and only then; the list is the planned one; what stays waits. */
  lemma ReadyStep(s: State, g: GroupId)
    requires g in s.order && Distinct(s.order[g]) && AllSilent(s, s.order[g])
    requires Mirrors(s, g) && (s.albums[g].sent <==> Handed(s, g))
    requires Handed(s, g) ==> AllUploaded(s, Remaining(s, g))
    ensures var t := IfReady(s, g);
      && GroupInv(t, g) && !Behind(t, g)
      && t.handed == s.handed
         + (if Ready(s, g) && !Handed(s, g)
            then [Handover(g, Planned(s, Remaining(s, g), |Remaining(s, g)|), |Remaining(s, g)| == 1)] else [])
  {
    hide Planned, Medias, Remaining, Mirror, ItemFor, Distinct, Filled, AllUploaded, TextOf;
    var ms := Remaining(s, g);
    var items := s.albums[g].items;
    var t := IfReady(s, g);
    SameRemaining(s, t, g);
    MirrorSize(s, items, ms);
    MirrorSame(s, t, items, ms);
    FilledIffUploaded(s, items, ms);
    FilledIffUploaded(t, items, ms);
    if !s.albums[g].sent && items != [] && Filled(items) {
      MediasArePlanned(s, items, ms, |ms|);
      assert t.handed[|s.handed|].group == g;
    }
    if t.handed == s.handed {
      assert Handed(t, g) <==> Handed(s, g);
    }
  }

  // ----- other albums are not touched

  /** `s` and `t` agree on everything about item `m`. */
  ghost predicate SameItem(s: State, t: State, m: MsgId) {
    && (m in t.uploaded <==> m in s.uploaded)
    && (m in s.uploaded && m in t.uploaded ==> t.uploaded[m] == s.uploaded[m])
    && (m in t.prepared <==> m in s.prepared) && (m in t.gone <==> m in s.gone)
    && TextOf(t.texts, m) == TextOf(s.texts, m) && TextOf(t.captions, m) == TextOf(s.captions, m)
  }

  /** `s` and `t` differ in nothing that belongs to album `h`. */
  ghost predicate SameFor(s: State, t: State, h: GroupId) {
    && h in s.order && h in t.order && t.order[h] == s.order[h]
    && (h in t.albums <==> h in s.albums) && (h in s.albums ==> t.albums[h] == s.albums[h])
    && (h in t.gathered <==> h in s.gathered) && (h in s.gathered ==> t.gathered[h] == s.gathered[h])
    && (Handed(t, h) <==> Handed(s, h))
    && forall m :: m in s.order[h] ==> SameItem(s, t, m)
  }

  lemma {:induction false} LeftAgree(order: seq<MsgId>, a: set<MsgId>, b: set<MsgId>, k: nat)
    requires k <= |order| && forall m :: m in order ==> (m in a <==> m in b)
    ensures Left(order, a, k) == Left(order, b, k)
  {
    if k > 0 {
      LeftAgree(order, a, b, k - 1);
    }
  }

  lemma SameForRemaining(s: State, t: State, h: GroupId)
    requires SameFor(s, t, h)
    ensures Remaining(t, h) == Remaining(s, h)
    ensures forall i :: 0 <= i < |Remaining(s, h)| ==> SameItem(s, t, Remaining(s, h)[i])
  {
    hide TextOf, Handed;
    LeftAgree(s.order[h], s.gone, t.gone, |s.order[h]|);
    var ms := Remaining(s, h);
    forall i | 0 <= i < |ms| ensures ms[i] in s.order[h] { RemainingMember(s, h, ms[i]); }
  }

  lemma SameUploaded(s: State, t: State, ms: seq<MsgId>)
    requires forall i :: 0 <= i < |ms| ==> SameItem(s, t, ms[i])
    ensures AllUploaded(t, ms) <==> AllUploaded(s, ms)
    ensures AllSilent(t, ms) <==> AllSilent(s, ms)
  {
    hide TextOf;
    assert forall i :: 0 <= i < |ms| ==> (ms[i] in t.uploaded <==> ms[i] in s.uploaded);
    assert forall i :: 0 <= i < |ms| ==> (Silent(t, ms[i]) <==> Silent(s, ms[i]));
  }

  lemma SameMirror(s: State, t: State, items: seq<Item>, ms: seq<MsgId>)
    requires Mirror(s, items, ms) && forall i :: 0 <= i < |ms| ==> SameItem(s, t, ms[i])
    ensures Mirror(t, items, ms)
  {
    hide TextOf, Trim;
    forall i | 0 <= i < |ms| ensures items[i] == ItemFor(t, ms[i]) {
      assert SameItem(s, t, ms[i]) && items[i] == ItemFor(s, ms[i]);
    }
  }

  lemma SameKeeps(s: State, t: State, h: GroupId)
    requires SameFor(s, t, h) && GroupInv(s, h)
    ensures GroupInv(t, h) && (Behind(t, h) <==> Behind(s, h))
  {
    hide SameItem, Remaining, Mirror, AllUploaded, AllSilent, Handed, Distinct;
    SameForRemaining(s, t, h);
    SameUploaded(s, t, Remaining(s, h));
    SameUploaded(s, t, s.order[h]);
    if h in s.albums {
      SameMirror(s, t, s.albums[h].items, Remaining(s, h));
    }
  }

  /** One more list is handed over, for album `g`. */
  predicate HandsOne(s: State, t: State, g: GroupId) {
    |t.handed| == |s.handed| + 1 && t.handed[..|s.handed|] == s.handed && t.handed[|s.handed|].group == g
  }

  /** What one step on album `g` and items of `g` leaves alone. */
  ghost predicate Local(s: State, t: State, g: GroupId) {
    && t.order == s.order
    && (forall h :: h != g ==>
          && (h in t.albums <==> h in s.albums)
          && (h in s.albums && h in t.albums ==> t.albums[h] == s.albums[h]))
    && (forall h :: h != g ==>
          && (h in t.gathered <==> h in s.gathered)
          && (h in s.gathered && h in t.gathered ==> t.gathered[h] == s.gathered[h]))
    && (t.handed == s.handed || HandsOne(s, t, g))
    && forall m :: (g in s.order ==> m !in s.order[g]) ==> SameItem(s, t, m)
  }

  lemma LocalIsSame(s: State, t: State, g: GroupId, h: GroupId)
    requires Local(s, t, g) && Separate(s) && g in s.order && h in s.order && h != g
    ensures SameFor(s, t, h)
  {
    hide SameItem;
    assert Handed(t, h) <==> Handed(s, h) by {
      if Handed(s, h) {
        var i :| 0 <= i < |s.handed| && s.handed[i].group == h;
        assert t.handed[i] == s.handed[i];
      }
      if Handed(t, h) {
        var i :| 0 <= i < |t.handed| && t.handed[i].group == h;
        assert i < |s.handed| && s.handed[i] == t.handed[i];
      }
    }
    hide Handed;
  }

  lemma FillLocal(s: State, g: GroupId, m: MsgId, u: Upload)
    requires g in s.order && m in s.order[g]
    ensures Local(s, Fill(s, g, m, u), g)
  {
    hide TextOf, Find, FillAt;
  }

  lemma PrepareLocal(s: State, g: GroupId, m: MsgId, caption: string)
    requires g in s.order && m in s.order[g]
    ensures Local(s, Prepare(s, g, m, caption), g)
  {
    hide Find, Trim;
  }

  lemma DropLocal(s: State, g: GroupId, m: MsgId)
    requires g in s.order && m in s.order[g]
    ensures Local(s, Drop(s, g, m), g)
  {
    hide TextOf, Find, Without;
  }

  /** What a removal changes at most. */
  ghost predicate RemovesAtMost(s: State, t: State, g: GroupId, m: MsgId) {
    && t == s.(albums := t.albums, texts := t.texts, gone := s.gone + {m}, gathered := t.gathered)
    && (t.albums == s.albums
        || (g in s.albums && g in t.albums && t.albums == s.albums[g := s.albums[g].(items := t.albums[g].items)]))
    && (t.gathered == s.gathered || (g in t.gathered && t.gathered == s.gathered[g := t.gathered[g]]))
    && (t.texts == s.texts
        || (g in s.albums && Holds(s.albums[g].items, m)
            && var rest := Without(s.albums[g].items, Find(s.albums[g].items, m));
               rest != [] && rest[0].id in t.texts && t.texts == s.texts[rest[0].id := t.texts[rest[0].id]]))
  }

  lemma RemoveAtMost(s: State, g: GroupId, m: MsgId)
    ensures RemovesAtMost(s, Remove(s, g, m), g, m)
  {
    hide Find, Moved, Refreshed, Without, TextOf;
  }

  lemma RemoveLocal(s: State, g: GroupId, m: MsgId)
    requires g in s.order && GroupInv(s, g) && m in s.order[g]
    ensures Local(s, Remove(s, g, m), g)
  {
    hide Find, GroupInv, Without, TextOf, Remove;
    RemoveAtMost(s, g, m);
    var t := Remove(s, g, m);
    if g in s.albums && Holds(s.albums[g].items, m) {
      RestIsOurs(s, g, m);
    }
    forall n | n !in s.order[g] ensures TextOf(t.texts, n) == TextOf(s.texts, n) { TextElsewhere(s.texts, t.texts, n); }
  }

  lemma TextElsewhere(a: map<MsgId, string>, b: map<MsgId, string>, n: MsgId)
    requires (n in a <==> n in b) && (n in a ==> a[n] == b[n])
    ensures TextOf(a, n) == TextOf(b, n)
  {
  }

  /** The item that comes first next is one of the album's own. */
  lemma RestIsOurs(s: State, g: GroupId, m: MsgId)
    requires GroupInv(s, g) && g in s.albums && Holds(s.albums[g].items, m)
    ensures var rest := Without(s.albums[g].items, Find(s.albums[g].items, m));
      rest != [] ==> rest[0].id in s.order[g]
  {
    hide Remaining, Distinct, Handed, Find, Without, Mirror, AllSilent, AllUploaded;
    var t := s.(gone := s.gone + {m});
    GoneCuts(s, t, g, m);
    var rest := Without(s.albums[g].items, Find(s.albums[g].items, m));
    if rest != [] {
      MirrorHead(s, rest, Remaining(t, g));
      RemainingMember(t, g, rest[0].id);
    }
  }

  /** An addition to the history at most, and a change to the map of albums at `g`. */
  ghost predicate HandsOverAtMost(s: State, t: State, g: GroupId) {
    && t == s.(albums := t.albums, handed := t.handed)
    && (t.albums == s.albums || t.albums == s.albums - {g}
        || (g in t.albums && t.albums == s.albums[g := t.albums[g]]))
    && (t.handed == s.handed || exists x: Handover :: x.group == g && t.handed == s.handed + [x])
  }

  lemma ReadyAtMost(s: State, g: GroupId)
    ensures HandsOverAtMost(s, IfReady(s, g), g)
  {
    hide Filled, Medias;
  }

  lemma ReadyLocal(s: State, g: GroupId)
    ensures Local(s, IfReady(s, g), g)
  {
    hide TextOf, IfReady;
    ReadyAtMost(s, g);
  }

  lemma LocalChain(s: State, u: State, t: State, g: GroupId)
    requires Local(s, u, g) && Local(u, t, g) && u.handed == s.handed
    ensures Local(s, t, g)
  {
    hide TextOf, SameItem;
    forall m | g in s.order ==> m !in s.order[g] ensures SameItem(s, t, m) {
      assert SameItem(s, u, m) && SameItem(u, t, m);
      SameItemChain(s, u, t, m);
    }
  }

  lemma SameItemChain(s: State, u: State, t: State, m: MsgId)
    requires SameItem(s, u, m) && SameItem(u, t, m)
    ensures SameItem(s, t, m)
  {
    hide TextOf;
  }

  lemma LocalSeparate(s: State, t: State, g: GroupId)
    requires Separate(s) && Local(s, t, g) && g in s.order
    ensures Separate(t)
  {
    hide SameItem;
  }

  // ----- captions

  /** The caption that builds up when `ms[0]` comes first after `ms[1]`, after `ms[2]` and so on: all their captions,
      a line each. */
  function Glue(captions: map<MsgId, string>, ms: seq<MsgId>): string {
    Join(Gathering(captions, ms), '\n')
  }

  /** The captions that are gathered. The last counts even if it is empty. */
  function Gathering(captions: map<MsgId, string>, ms: seq<MsgId>): (lines: seq<string>)
    ensures ms != [] ==> lines != []
  {
    if ms == [] then []
    else
      var own := TextOf(captions, ms[0]);
      (if own == "" && |ms| > 1 then [] else [own]) + Gathering(captions, ms[1..])
  }

  /** A message of the album that was cancelled. */
  predicate WasCancelled(s: State, g: GroupId, m: MsgId) {
    g in s.order && m in s.order[g] && m in s.prepared && m in s.gone
  }

  /** The first item left carries its own caption and those it gathered, all of cancelled messages and none before it
      is a message itself; every other item carries its own. */
  ghost predicate Captioned(s: State, g: GroupId) {
    g in s.albums && Remaining(s, g) != [] ==>
      && g in s.gathered && |s.gathered[g]| > 0 && g in s.order
      && var ms := Remaining(s, g);
         && s.gathered[g][0] == ms[0]
         && (ms[0] !in s.prepared ==> |s.gathered[g]| == 1)
         && TextOf(s.texts, ms[0]) == Glue(s.captions, s.gathered[g])
         && (forall i :: 1 <= i < |ms| ==> TextOf(s.texts, ms[i]) == TextOf(s.captions, ms[i]))
         && forall i :: 1 <= i < |s.gathered[g]| ==> WasCancelled(s, g, s.gathered[g][i])
  }

  lemma GlueMore(captions: map<MsgId, string>, m: MsgId, ms: seq<MsgId>)
    requires |ms| > 0
    ensures Glue(captions, [m] + ms) == Moved(TextOf(captions, m), Glue(captions, ms))
  {
    hide TextOf;
    assert ([m] + ms)[1..] == ms;
    var lines := Gathering(captions, ms);
    if TextOf(captions, m) == "" {
      assert [] + lines == lines;
    } else {
      assert ([TextOf(captions, m)] + lines)[1..] == lines;
    }
  }

  lemma {:induction false} GlueSame(a: map<MsgId, string>, b: map<MsgId, string>, ms: seq<MsgId>)
    requires forall i :: 0 <= i < |ms| ==> TextOf(a, ms[i]) == TextOf(b, ms[i])
    ensures Glue(a, ms) == Glue(b, ms)
  {
    GatheringSame(a, b, ms);
  }

  lemma {:induction false} GatheringSame(a: map<MsgId, string>, b: map<MsgId, string>, ms: seq<MsgId>)
    requires forall i :: 0 <= i < |ms| ==> TextOf(a, ms[i]) == TextOf(b, ms[i])
    ensures Gathering(a, ms) == Gathering(b, ms)
  {
    hide TextOf;
    if |ms| > 0 {
      forall i | 0 <= i < |ms[1..]|
        ensures TextOf(a, ms[1..][i]) == TextOf(b, ms[1..][i]) { assert ms[1..][i] == ms[i + 1]; }
      GatheringSame(a, b, ms[1..]);
    }
  }

  /** An item goes that is not the first. */
  lemma CutCaptioned(s: State, t: State, g: GroupId, i: nat)
    requires Captioned(s, g) && g in s.albums && 0 < i < |Remaining(s, g)|
    requires Remaining(t, g) == Cut(Remaining(s, g), i) && t.order == s.order && s.gone <= t.gone
    requires t.texts == s.texts && t.captions == s.captions && t.prepared == s.prepared && t.gathered == s.gathered
    ensures Captioned(t, g)
  {
    hide Remaining, Glue, TextOf;
    var ms := Remaining(s, g);
    assert Cut(ms, i)[0] == ms[0];
    forall j | 1 <= j < |ms| - 1 ensures TextOf(t.texts, Cut(ms, i)[j]) == TextOf(t.captions, Cut(ms, i)[j]) {
      assert Cut(ms, i)[j] == if j < i then ms[j] else ms[j + 1];
    }
  }

  /** The first item goes and takes its caption with it. */
  lemma FirstGoes(s: State, t: State, g: GroupId)
    requires Captioned(s, g) && g in s.albums && |Remaining(s, g)| > 0
    requires Remaining(t, g) == Cut(Remaining(s, g), 0) && t.order == s.order
    requires t.texts == s.texts && t.captions == s.captions && t.prepared == s.prepared
    requires |Remaining(s, g)| > 1 ==> g in t.gathered && t.gathered[g] == [Remaining(s, g)[1]]
    ensures Captioned(t, g)
  {
    hide Remaining, TextOf, Glue;
    var ms := Remaining(s, g);
    forall j | 0 <= j < |ms| - 1 ensures TextOf(t.texts, Cut(ms, 0)[j]) == TextOf(t.captions, Cut(ms, 0)[j]) {
      assert Cut(ms, 0)[j] == ms[j + 1];
    }
    if |ms| > 1 { GlueOne(s.captions, ms[1]); }
  }

  /** The first item goes and its caption moves behind that of the next. */
  lemma FirstMoves(s: State, t: State, g: GroupId)
    requires Captioned(s, g) && g in s.albums && |Remaining(s, g)| > 1 && Distinct(Remaining(s, g))
    requires Remaining(t, g) == Cut(Remaining(s, g), 0) && t.order == s.order && t.prepared == s.prepared
    requires s.gone <= t.gone && WasCancelled(t, g, Remaining(s, g)[0]) && Remaining(s, g)[1] in s.prepared
    requires t.captions == s.captions
    requires t.texts == s.texts[Remaining(s, g)[1] :=
      Moved(TextOf(s.texts, Remaining(s, g)[1]), TextOf(s.texts, Remaining(s, g)[0]))]
    requires g in t.gathered && t.gathered[g] == [Remaining(s, g)[1]] + s.gathered[g]
    ensures Captioned(t, g)
  {
    hide Remaining, Glue, Moved;
    var ms := Remaining(s, g);
    var first := ms[1];
    assert Cut(ms, 0)[0] == first;
    GlueMore(s.captions, first, s.gathered[g]);
    forall j | 1 <= j < |ms| - 1 ensures TextOf(t.texts, Cut(ms, 0)[j]) == TextOf(t.captions, Cut(ms, 0)[j]) {
      assert Cut(ms, 0)[j] == ms[j + 1] && ms[j + 1] != ms[1];
    }
    forall j | 1 <= j < |t.gathered[g]| ensures WasCancelled(t, g, t.gathered[g][j]) {
      assert t.gathered[g][j] == s.gathered[g][j - 1];
      if j > 1 { assert WasCancelled(s, g, s.gathered[g][j - 1]); }
    }
  }

  lemma RemoveCaptioned(s: State, g: GroupId, m: MsgId)
    requires g in s.order && Distinct(s.order[g]) && Mirrors(s, g) && Captioned(s, g)
    requires m in s.order[g] && m in s.prepared && Holds(s.albums[g].items, m)
    ensures Captioned(Remove(s, g, m), g)
  {
    hide Remaining, Find, Mirror, Moved, Refreshed, Glue, Without, TextOf, ItemFor, Distinct, Captioned;
    var t := Remove(s, g, m);
    GoneCuts(s, t, g, m);
    RemainingDistinct(s, g);
    var items := s.albums[g].items;
    var i, ms := Find(items, m), Remaining(s, g);
    var rest := Without(items, i);
    MirrorSize(s, rest, Cut(ms, i));
    if i > 0 {
      CutCaptioned(s, t, g, i);
    } else if rest == [] {
      FirstGoes(s, t, g);
    } else {
      MirrorHead(s, rest, Cut(ms, 0));
      assert Cut(ms, 0)[0] == ms[1];
      if rest[0].message {
        assert g in s.gathered by { assert Captioned(s, g); GatheredIs(s, g); }
        FirstMoves(s, t, g);
      } else {
        FirstGoes(s, t, g);
      }
    }
  }

  lemma GatheredIs(s: State, g: GroupId)
    requires Captioned(s, g) && g in s.albums && Remaining(s, g) != []
    ensures g in s.gathered && |s.gathered[g]| > 0 && s.gathered[g][0] == Remaining(s, g)[0]
    ensures Remaining(s, g)[0] !in s.prepared ==> |s.gathered[g]| == 1
    ensures forall i :: 1 <= i < |s.gathered[g]| ==> WasCancelled(s, g, s.gathered[g][i])
  {
    hide Remaining, Glue, TextOf;
  }

  lemma DropCaptioned(s: State, g: GroupId, m: MsgId)
    requires g in s.order && Distinct(s.order[g]) && Mirrors(s, g) && Captioned(s, g)
    requires Holds(s.albums[g].items, m)
    ensures Captioned(Drop(s, g, m), g)
  {
    hide Remaining, Find, Mirror, Glue, Without, TextOf, ItemFor, Distinct, Captioned;
    var t := Drop(s, g, m);
    GoneCuts(s, t, g, m);
    var items := s.albums[g].items;
    var i, ms := Find(items, m), Remaining(s, g);
    var rest := Without(items, i);
    MirrorSize(s, rest, Cut(ms, i));
    if i > 0 {
      CutCaptioned(s, t, g, i);
    } else {
      if rest != [] {
        MirrorHead(s, rest, Cut(ms, 0));
        assert Cut(ms, 0)[0] == ms[1];
      }
      FirstGoes(s, t, g);
    }
  }

  lemma PrepareCaptioned(s: State, g: GroupId, m: MsgId, caption: string)
    requires g in s.albums && g in s.order && Captioned(s, g) && m !in s.prepared && m !in s.gone
    ensures Captioned(Prepare(s, g, m, caption), g)
  {
    hide Remaining, Find, Glue, Trim, Holds;
    var t := Prepare(s, g, m, caption);
    SameRemaining(s, t, g);
    if Remaining(s, g) != [] {
      GatheredIs(s, g);
      PrepareGlue(s, t, g, m);
    }
  }

  /** A message is made: as the first of the album it gathered nothing yet, and behind the first it is not gathered. */
  lemma PrepareGlue(s: State, t: State, g: GroupId, m: MsgId)
    requires g in s.gathered && |s.gathered[g]| > 0 && m !in s.prepared
    requires s.gathered[g][0] !in s.prepared ==> |s.gathered[g]| == 1
    requires forall i :: 1 <= i < |s.gathered[g]| ==> WasCancelled(s, g, s.gathered[g][i])
    requires TextOf(s.texts, s.gathered[g][0]) == Glue(s.captions, s.gathered[g])
    requires TextOf(t.texts, m) == TextOf(t.captions, m)
    requires forall n :: n != m ==>
      TextOf(t.texts, n) == TextOf(s.texts, n) && TextOf(t.captions, n) == TextOf(s.captions, n)
    ensures TextOf(t.texts, s.gathered[g][0]) == Glue(t.captions, s.gathered[g])
  {
    hide Glue, TextOf;
    var ids := s.gathered[g];
    if ids[0] == m {
      assert ids == [m];
      GlueOne(t.captions, m);
    } else {
      forall i | 0 <= i < |ids| ensures TextOf(t.captions, ids[i]) == TextOf(s.captions, ids[i]) {
        if i > 0 { assert WasCancelled(s, g, ids[i]); }
      }
      GlueSame(t.captions, s.captions, ids);
    }
  }

  lemma GlueOne(captions: map<MsgId, string>, m: MsgId)
    ensures Glue(captions, [m]) == TextOf(captions, m)
  {
    assert Gathering(captions, [m]) == [TextOf(captions, m)];
  }

  lemma SameCaptioned(s: State, t: State, h: GroupId)
    requires SameFor(s, t, h) && Captioned(s, h)
    ensures Captioned(t, h)
  {
    hide Handed, Glue, Remaining, TextOf;
    SameForRemaining(s, t, h);
    var ms := Remaining(s, h);
    if h in s.albums && ms != [] {
      var ids := s.gathered[h];
      forall i | 0 <= i < |ids| ensures SameItem(s, t, ids[i]) {
        if i > 0 { assert WasCancelled(s, h, ids[i]); }
      }
      GlueSame(s.captions, t.captions, ids);
      assert forall i :: 0 <= i < |ms| ==> TextOf(t.texts, ms[i]) == TextOf(s.texts, ms[i]);
    }
  }

  lemma ReadyCaptioned(u: State, g: GroupId)
    requires Captioned(u, g)
    ensures Captioned(IfReady(u, g), g)
  {
    hide Glue, Remaining, TextOf, Filled, Medias;
    SameRemaining(u, IfReady(u, g), g);
  }

  // ----- steps

  ghost predicate RunInv(s: State) {
    && Separate(s) && HandedOnce(s)
    && (forall g :: g in s.order ==> GroupInv(s, g))
    && forall g :: g in s.order ==> Captioned(s, g)
  }

  lemma GroupHolds(s: State, g: GroupId)
    requires RunInv(s) && g in s.order
    ensures GroupInv(s, g) && Captioned(s, g) && Separate(s) && HandedOnce(s)
  {
    hide GroupInv, Captioned, Separate, HandedOnce;
  }

  lemma HandedMore(s: State, t: State, g: GroupId)
    requires HandedOnce(s) && t.order == s.order && g in s.order
    requires t.handed == s.handed || (!Handed(s, g) && HandsOne(s, t, g))
    ensures HandedOnce(t)
  {
    forall i | 0 <= i < |s.handed| ensures t.handed[i] == s.handed[i] {
      assert t.handed != s.handed ==> t.handed[..|s.handed|][i] == s.handed[i];
    }
  }

  /** A step on album `g` keeps the invariant when it keeps that of `g`. */
  lemma LocalKeeps(s: State, t: State, g: GroupId)
    requires RunInv(s) && g in s.order && Local(s, t, g) && GroupInv(t, g) && Captioned(t, g)
    requires t.handed == s.handed || (!Handed(s, g) && HandsOne(s, t, g))
    ensures RunInv(t)
  {
    hide GroupInv, Captioned, Separate, HandedOnce, Handed, SameItem;
    HandedMore(s, t, g);
    LocalSeparate(s, t, g);
    forall h | h in t.order ensures GroupInv(t, h) && Captioned(t, h) {
      if h != g {
        LocalIsSame(s, t, g, h);
        SameKeeps(s, t, h);
        SameCaptioned(s, t, h);
      }
    }
  }

  /** No order of events makes an assertion of the source fail. */
  lemma AssertionsHold(s: State, e: Event)
    requires RunInv(s) && Enabled(s, e)
    ensures Asserted(s, e)
  {
    hide RunInv, Remaining, Find, Separate, Distinct, HandedOnce, Captioned, Mirror, Handed, AllSilent;
    if !e.Began? && !e.Over? {
      GroupHolds(s, e.group);
      RemainingMember(s, e.group, e.msg);
      if e.group in s.albums {
        MirrorHolds(s, s.albums[e.group].items, Remaining(s, e.group), e.msg);
      } else if !e.Cancelled? {
        OutstandingIs(s, e);
      }
    }
  }

  lemma MirrorHolds(s: State, items: seq<Item>, ms: seq<MsgId>, m: MsgId)
    requires Mirror(s, items, ms) && m in ms
    ensures Holds(items, m)
    ensures items[Find(items, m)].message <==> m in s.prepared
    ensures m !in s.uploaded ==> items[Find(items, m)].media.None?
  {
    var i :| 0 <= i < |ms| && ms[i] == m;
    assert items[i] == ItemFor(s, m);
    assert items[Find(items, m)] == ItemFor(s, ms[Find(items, m)]);
  }

  /** Until its upload an item is outstanding. */
  lemma OutstandingIs(s: State, e: Event)
    requires (e.Prepared? || e.Unprepared? || e.Uploaded?) && e.group in s.order && GroupInv(s, e.group)
    requires Enabled(s, e)
    ensures !AllUploaded(s, Remaining(s, e.group)) && !Handed(s, e.group) && !Behind(s, e.group)
    ensures e.msg !in s.uploaded
  {
    hide Remaining, Distinct, Mirror, Handed, TextOf;
    RemainingMember(s, e.group, e.msg);
    var i :| 0 <= i < |Remaining(s, e.group)| && Remaining(s, e.group)[i] == e.msg;
    var j :| 0 <= j < |s.order[e.group]| && s.order[e.group][j] == e.msg;
    assert Silent(s, s.order[e.group][j]);
  }

  /** What an upload or a cancellation does to its own album before the last check. */
  ghost predicate Middle(s: State, u: State, g: GroupId) {
    && g in s.order && Local(s, u, g) && u.handed == s.handed && AllSilent(u, u.order[g])
    && (Handed(s, g) ==> AllUploaded(u, Remaining(u, g)))
    && if g in s.albums then Mirrors(u, g) && u.albums[g].sent == s.albums[g].sent
       else g !in u.albums && (Remaining(s, g) == [] ==> Remaining(u, g) == [])
  }

  ghost predicate HandsOver(s: State, t: State, g: GroupId) {
    t.handed == s.handed
      + (if Ready(t, g) && !Handed(s, g)
         then [Handover(g, Planned(t, Remaining(t, g), |Remaining(t, g)|), |Remaining(t, g)| == 1)] else [])
  }

  lemma {:induction false} PlannedSame(s: State, t: State, ms: seq<MsgId>, k: nat)
    requires k <= |ms| && AllUploaded(s, ms) && t.uploaded == s.uploaded && t.texts == s.texts
    ensures AllUploaded(t, ms) && Planned(t, ms, k) == Planned(s, ms, k)
  {
    if k > 0 {
      PlannedSame(s, t, ms, k - 1);
    }
  }

  lemma HandsOneMore(s: State, t: State, g: GroupId)
    requires HandsOver(s, t, g)
    ensures t.handed == s.handed || (!Handed(s, g) && HandsOne(s, t, g))
  {
    hide Handed, Planned, Remaining, Ready;
  }

  lemma ReadySame(s: State, t: State, g: GroupId)
    requires t.uploaded == s.uploaded && Remaining(t, g) == Remaining(s, g)
    ensures Ready(t, g) <==> Ready(s, g)
  {
    hide Remaining;
  }

  /** The check of an album that is still there. */
  lemma OwnAlive(s: State, u: State, g: GroupId)
    requires g in u.order && Distinct(u.order[g]) && AllSilent(u, u.order[g]) && Mirrors(u, g)
    requires u.handed == s.handed && (u.albums[g].sent <==> Handed(s, g))
    requires Handed(s, g) ==> AllUploaded(u, Remaining(u, g))
    ensures var t := IfReady(u, g);
      GroupInv(t, g) && HandsOver(s, t, g) && !Behind(t, g)
  {
    hide Remaining, Planned, Mirrors, Distinct, GroupInv, IfReady, AllUploaded, AllSilent, Behind;
    var t := IfReady(u, g);
    assert Handed(u, g) <==> Handed(s, g);
    hide Handed;
    ReadyStep(u, g);
    ReadyAtMost(u, g);
    SameRemaining(u, t, g);
    ReadySame(u, t, g);
    if AllUploaded(u, Remaining(u, g)) {
      PlannedSame(u, t, Remaining(u, g), |Remaining(u, g)|);
    }
  }

  /** The check of an album that is gone: nothing happens. */
  lemma OwnGone(s: State, u: State, g: GroupId)
    requires g in u.order && Distinct(u.order[g]) && AllSilent(u, u.order[g])
    requires g !in u.albums && u.handed == s.handed
    requires Handed(s, g) || Remaining(u, g) == []
    requires Handed(s, g) ==> AllUploaded(u, Remaining(u, g))
    ensures var t := IfReady(u, g);
      GroupInv(t, g) && HandsOver(s, t, g) && !Behind(t, g)
  {
    hide Remaining, Planned, Mirrors, Distinct, AllUploaded, AllSilent, Medias;
    assert IfReady(u, g) == u;
    assert Handed(u, g) <==> Handed(s, g);
  }

  lemma OwnAlbum(s: State, u: State, g: GroupId)
    requires GroupInv(s, g) && Middle(s, u, g)
    ensures var t := IfReady(u, g);
      && GroupInv(t, g) && HandsOver(s, t, g) && !Behind(t, g)
      && (t.handed == s.handed || (!Handed(s, g) && HandsOne(s, t, g)))
  {
    hide Remaining, Planned, Mirrors, Distinct, AllUploaded, AllSilent, Medias, HandsOver, Behind, SameItem, IfReady;
    if g in s.albums {
      OwnAlive(s, u, g);
    } else {
      OwnGone(s, u, g);
    }
    HandsOneMore(s, IfReady(u, g), g);
  }

  /** Uploads and cancellations keep the invariant, and hand the album over exactly when it becomes ready. */
  lemma MiddleKeeps(s: State, u: State, g: GroupId)
    requires RunInv(s) && Middle(s, u, g) && Captioned(u, g)
    ensures var t := IfReady(u, g);
      RunInv(t) && HandsOver(s, t, g) && !Behind(t, g)
  {
    hide Local, Captioned, GroupInv, HandsOver, IfReady, RunInv, Behind, Handed, HandsOne;
    GroupHolds(s, g);
    OwnAlbum(s, u, g);
    ReadyCaptioned(u, g);
    ReadyLocal(u, g);
    LocalChain(s, u, IfReady(u, g), g);
    LocalKeeps(s, IfReady(u, g), g);
  }

  lemma UploadMiddle(s: State, g: GroupId, m: MsgId, u: Upload)
    requires RunInv(s) && Enabled(s, Uploaded(g, m, u))
    ensures Middle(s, Fill(s, g, m, u), g) && Captioned(Fill(s, g, m, u), g)
  {
    hide RunInv, Local, Mirror, Remaining, Find, FillAt, Handed, Glue, TextOf, Distinct, Ready, AllUploaded;
    GroupHolds(s, g);
    AssertionsHold(s, Uploaded(g, m, u));
    OutstandingIs(s, Uploaded(g, m, u));
    RemainingDistinct(s, g);
    FillMirrors(s, g, m, u);
    FillLocal(s, g, m, u);
    SameRemaining(s, Fill(s, g, m, u), g);
  }

  lemma {:induction false} NothingLeftStays(order: seq<MsgId>, gone: set<MsgId>, m: MsgId, k: nat)
    requires k <= |order| && Left(order, gone, k) == []
    ensures Left(order, gone + {m}, k) == []
  {
    if k > 0 {
      NothingLeftStays(order, gone, m, k - 1);
    }
  }

  /** What goes leaves nothing outstanding that was not outstanding before. */
  lemma GoneUploaded(s: State, t: State, g: GroupId)
    requires g in s.order && AllUploaded(s, Remaining(s, g))
    requires t.order == s.order && t.uploaded == s.uploaded && s.gone <= t.gone
    ensures AllUploaded(t, Remaining(t, g))
  {
    hide Remaining;
    var ms := Remaining(t, g);
    forall i | 0 <= i < |ms| ensures ms[i] in t.uploaded {
      RemainingMember(t, g, ms[i]);
      RemainingMember(s, g, ms[i]);
    }
  }

  /** A removed message was none to be prepared, so that captions move to messages only. */
  lemma RemoveSilent(s: State, g: GroupId, m: MsgId)
    requires g in s.order && AllSilent(s, s.order[g]) && (g in s.albums ==> Mirrors(s, g)) && Distinct(s.order[g])
    ensures AllSilent(Remove(s, g, m), s.order[g])
  {
    hide Find, Remaining, Mirror, Without, Moved, Refreshed, Distinct;
    var t := Remove(s, g, m);
    var order := s.order[g];
    forall i | 0 <= i < |order| ensures Silent(t, order[i]) {
      assert Silent(s, order[i]);
      if g in s.albums && Holds(s.albums[g].items, m) {
        GoneCuts(s, t, g, m);
        var rest := Without(s.albums[g].items, Find(s.albums[g].items, m));
        if rest != [] {
          MirrorHead(s, rest, Remaining(t, g));
        }
      }
    }
  }

  lemma CancelMiddle(s: State, g: GroupId, m: MsgId)
    requires RunInv(s) && Enabled(s, Cancelled(g, m))
    ensures Middle(s, Remove(s, g, m), g) && Captioned(Remove(s, g, m), g)
  {
    hide RunInv, Local, Mirror, Find, Captioned, Distinct, Remove, Without, AllSilent, AllUploaded, Handed, Remaining;
    GroupHolds(s, g);
    AssertionsHold(s, Cancelled(g, m));
    var t := Remove(s, g, m);
    RemoveAtMost(s, g, m);
    if Handed(s, g) { GoneUploaded(s, t, g); }
    RemoveLocal(s, g, m);
    RemoveSilent(s, g, m);
    if g in s.albums {
      RemoveMirrors(s, g, m);
      RemoveCaptioned(s, g, m);
    } else {
      RemoveNothing(s, g, m);
    }
  }

  lemma RemoveNothing(s: State, g: GroupId, m: MsgId)
    requires g in s.order && g !in s.albums
    ensures Remaining(s, g) == [] ==> Remaining(Remove(s, g, m), g) == []
    ensures Captioned(Remove(s, g, m), g)
  {
    if Remaining(s, g) == [] {
      NothingLeftStays(s.order[g], s.gone, m, |s.order[g]|);
    }
  }

  lemma PrepareKeeps(s: State, g: GroupId, m: MsgId, caption: string)
    requires RunInv(s) && Enabled(s, Prepared(g, m, caption))
    ensures RunInv(Prepare(s, g, m, caption))
  {
    hide RunInv, Local, Find, Distinct, Mirror, Captioned, Trim, Remaining, AllUploaded;
    GroupHolds(s, g);
    AssertionsHold(s, Prepared(g, m, caption));
    OutstandingIs(s, Prepared(g, m, caption));
    RemainingDistinct(s, g);
    var t := Prepare(s, g, m, caption);
    PrepareMirrors(s, g, m, caption);
    PrepareCaptioned(s, g, m, caption);
    PrepareLocal(s, g, m, caption);
    assert Handed(t, g) <==> Handed(s, g);
    forall i | 0 <= i < |s.order[g]| ensures Silent(t, s.order[g][i]) { assert Silent(s, s.order[g][i]); }
    LocalKeeps(s, t, g);
  }

  lemma DropKeeps(s: State, g: GroupId, m: MsgId)
    requires RunInv(s) && Enabled(s, Unprepared(g, m))
    ensures RunInv(Drop(s, g, m))
    ensures var t := Drop(s, g, m);
      Behind(t, g) <==> AllUploaded(t, Remaining(t, g))
  {
    hide RunInv, Local, Find, Distinct, Mirror, Captioned, Remaining, AllUploaded, Without, TextOf;
    GroupHolds(s, g);
    AssertionsHold(s, Unprepared(g, m));
    OutstandingIs(s, Unprepared(g, m));
    var t := Drop(s, g, m);
    DropMirrors(s, g, m);
    DropCaptioned(s, g, m);
    DropLocal(s, g, m);
    assert Handed(t, g) <==> Handed(s, g);
    forall i | 0 <= i < |s.order[g]| ensures Silent(t, s.order[g][i]) { assert Silent(s, s.order[g][i]); }
    LocalKeeps(s, t, g);
  }

  lemma {:induction false} LeftAll(order: seq<MsgId>, gone: set<MsgId>, k: nat)
    requires k <= |order| && forall i :: 0 <= i < |order| ==> order[i] !in gone
    ensures Left(order, gone, k) == order[..k]
  {
    if k > 0 {
      LeftAll(order, gone, k - 1);
      assert order[..k] == order[..k - 1] + [order[k - 1]];
    }
  }

  lemma BeginRemaining(s: State, g: GroupId, order: seq<MsgId>)
    requires Enabled(s, Began(g, order))
    ensures Remaining(Begin(s, g, order), g) == order
  {
    assert forall i :: 0 <= i < |order| ==> Unknown(s, order[i]);
    LeftAll(order, s.gone, |order|);
    assert order[..|order|] == order;
  }

  lemma BeginNotHanded(s: State, g: GroupId, order: seq<MsgId>)
    requires HandedOnce(s) && Enabled(s, Began(g, order))
    ensures !Handed(Begin(s, g, order), g)
  {
  }

  lemma BeginMirror(s: State, order: seq<MsgId>)
    requires forall i :: 0 <= i < |order| ==> Unknown(s, order[i])
    ensures Mirror(s, Fresh(order), order) && AllSilent(s, order)
  {
    forall i | 0 <= i < |order| ensures Fresh(order)[i] == ItemFor(s, order[i]) && Silent(s, order[i]) {
      assert Unknown(s, order[i]);
    }
  }

  lemma BeginOwn(s: State, g: GroupId, order: seq<MsgId>)
    requires HandedOnce(s) && Enabled(s, Began(g, order))
    ensures var t := Begin(s, g, order);
      GroupInv(t, g) && Captioned(t, g) && !Behind(t, g)
  {
    hide Remaining, Handed, Mirror, Distinct, AllSilent, TextOf, Unknown, Fresh;
    var t := Begin(s, g, order);
    BeginRemaining(s, g, order);
    BeginNotHanded(s, g, order);
    BeginMirror(s, order);
    MirrorSame(s, t, Fresh(order), order);
    assert AllSilent(t, order) by { SilentSame(s, t, order); }
    BeginCaptions(s, t, g, order);
  }

  lemma SilentSame(s: State, t: State, ms: seq<MsgId>)
    requires AllSilent(s, ms) && t.uploaded == s.uploaded && t.texts == s.texts
    requires t.captions == s.captions && t.prepared == s.prepared
    ensures AllSilent(t, ms)
  {
    forall i | 0 <= i < |ms| ensures Silent(t, ms[i]) { assert Silent(s, ms[i]); }
  }

  lemma BeginCaptions(s: State, t: State, g: GroupId, order: seq<MsgId>)
    requires |order| > 0 && forall i :: 0 <= i < |order| ==> Unknown(s, order[i])
    requires t.texts == s.texts && t.captions == s.captions && t.uploaded == s.uploaded
    requires g in t.order && Remaining(t, g) == order && g in t.gathered && t.gathered[g] == [order[0]]
    ensures Captioned(t, g) && !AllUploaded(t, order)
  {
    hide Remaining, Glue;
    assert forall i :: 0 <= i < |order| ==> Unknown(s, order[i]);
    assert order[0] !in t.uploaded;
    GlueOne(t.captions, order[0]);
  }

  lemma BeginSame(s: State, g: GroupId, order: seq<MsgId>, h: GroupId)
    requires Enabled(s, Began(g, order)) && h in s.order
    ensures SameFor(s, Begin(s, g, order), h)
  {
    hide TextOf;
    assert Handed(Begin(s, g, order), h) <==> Handed(s, h);
  }

  lemma BeginSeparate(s: State, g: GroupId, order: seq<MsgId>)
    requires Separate(s) && HandedOnce(s) && Enabled(s, Began(g, order))
    ensures Separate(Begin(s, g, order)) && HandedOnce(Begin(s, g, order))
  {
    forall m | m in order ensures Unknown(s, m) {
      var i :| 0 <= i < |order| && order[i] == m;
    }
  }

  lemma BeginKeeps(s: State, g: GroupId, order: seq<MsgId>)
    requires RunInv(s) && Enabled(s, Began(g, order))
    ensures RunInv(Begin(s, g, order))
  {
    hide GroupInv, Captioned, Separate, HandedOnce, Unknown, Distinct, SameFor, Behind, Fresh;
    var t := Begin(s, g, order);
    BeginOwn(s, g, order);
    BeginSeparate(s, g, order);
    forall h | h in t.order ensures GroupInv(t, h) && Captioned(t, h) {
      if h != g {
        BeginSame(s, g, order, h);
        SameKeeps(s, t, h);
        SameCaptioned(s, t, h);
      }
    }
  }

  lemma OverOwn(s: State, g: GroupId)
    requires GroupInv(s, g) && g in s.albums && s.albums[g].sent
    ensures GroupInv(Finish(s, g), g) && Captioned(Finish(s, g), g) && !Behind(Finish(s, g), g)
  {
    hide Mirror, Distinct, Remaining, TextOf;
    SameRemaining(s, Finish(s, g), g);
    assert Handed(Finish(s, g), g);
    assert AllSilent(Finish(s, g), s.order[g]) by { SilentSame(s, Finish(s, g), s.order[g]); }
  }

  lemma OverLocal(s: State, g: GroupId)
    ensures Local(s, Finish(s, g), g)
  {
    hide TextOf;
  }

  lemma OverKeeps(s: State, g: GroupId)
    requires RunInv(s) && Enabled(s, Over(g))
    ensures RunInv(Finish(s, g)) && !Behind(Finish(s, g), g)
  {
    hide GroupInv, Captioned, HandedOnce, Local, Behind;
    assert g in s.order;
    OverOwn(s, g);
    OverLocal(s, g);
    hide RunInv;
    LocalKeeps(s, Finish(s, g), g);
  }

  lemma StepKeeps(s: State, e: Event)
    requires RunInv(s) && Enabled(s, e)
    ensures RunInv(Step(s, e))
    ensures if e.Uploaded? || e.Cancelled? then HandsOver(s, Step(s, e), e.group) && !Behind(Step(s, e), e.group)
            else Step(s, e).handed == s.handed
  {
    hide RunInv, HandsOver, Fill, Remove, IfReady, Enabled, Middle, Captioned, Behind, Find, Without;
    match e
    case Began(g, order) => BeginKeeps(s, g, order);
    case Prepared(g, m, caption) => PrepareKeeps(s, g, m, caption);
    case Unprepared(g, m) => DropKeeps(s, g, m);
    case Uploaded(g, m, u) =>
      UploadMiddle(s, g, m, u);
      MiddleKeeps(s, Fill(s, g, m, u), g);
    case Cancelled(g, m) =>
      CancelMiddle(s, g, m);
      MiddleKeeps(s, Remove(s, g, m), g);
    case Over(g) => OverKeeps(s, g);
  }
}
