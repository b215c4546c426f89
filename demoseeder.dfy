/**
 * The demo seeder (`seedMockData`): for each of the seven demo video keys, then the
 * demo audio key, it asks the media store whether the key holds a blob and saves a
 * freshly synthesized one only when it does not. Blob synthesis (canvas and oscillator
 * recording) is opaque: `render` and `audio` stand for what it produces.
 */
module DemoSeeder {
  import opened Wrappers
  import opened BlobUrls
  import opened MediaStore
  import Seqs

  datatype DemoItem = DemoItem(key: string, text: string, color: string)

  /** The seven demo videos, in the order they are seeded. */
  function DemoVideos(): seq<DemoItem>
  {
    [ DemoItem("/videos/nana_1.mp4", "James: \"Happy Birthday Nana!\"", "#1e293b"),
      DemoItem("/videos/nana_2.mp4", "Lily: \"We love you so much.\"", "#451a03"),
      DemoItem("/videos/nana_3.mp4", "Uncle Bob: \"Remember the lake?\"", "#064e3b"),
      DemoItem("/videos/nana_4.mp4", "Sarah: \"You look amazing at 80.\"", "#4c1d95"),
      DemoItem("/videos/nana_5.mp4", "Michael: \"The heart of our family.\"", "#831843"),
      DemoItem("/videos/nana_6.mp4", "Aunt May: \"To many more years.\"", "#164e63"),
      DemoItem("/videos/nana_7.mp4", "David: \"Cheers to my old friend!\"", "#171717")
    ]
  }

  const AudioKey: string := "/audio/demo_track.wav"

  /** A key to seed and the blob to store under it if the key is missing. */
  type Entry = (string, Blob)

  /** What one iteration does to the store. */
  function SeedStep(objects: map<string, Blob>, e: Entry): map<string, Blob>
  {
    if e.0 in objects then objects else objects[e.0 := e.1]
  }

  /** The store after seeding `entries` in order. */
  function SeedAll(objects: map<string, Blob>, entries: seq<Entry>): map<string, Blob>
  {
    if entries == [] then objects
    else SeedStep(SeedAll(objects, entries[..|entries| - 1]), entries[|entries| - 1])
  }

  /** The requests made while seeding `entries` in order: a lookup per key, a save per miss. */
  function SeedLog(objects: map<string, Blob>, entries: seq<Entry>): seq<Request>
  {
    if entries == [] then []
    else
      var init, e := entries[..|entries| - 1], entries[|entries| - 1];
      SeedLog(objects, init) + [Get(e.0)] + (if e.0 in SeedAll(objects, init) then [] else [Put(e.0)])
  }

  /** How many lookups found a blob, each of them minting a URL. */
  function Hits(objects: map<string, Blob>, entries: seq<Entry>): nat
  {
    if entries == [] then 0
    else
      var init, e := entries[..|entries| - 1], entries[|entries| - 1];
      Hits(objects, init) + (if e.0 in SeedAll(objects, init) then 1 else 0)
  }

  /** The seeder's work list: the videos in list order, then the audio track. */
  function DemoEntries(render: DemoItem -> Blob, audio: Blob): seq<Entry>
  {
    VideoEntries(DemoVideos(), render) + [(AudioKey, audio)]
  }

  function KeyOf(e: Entry): string { e.0 }

  function Keys(entries: seq<Entry>): seq<string>
  {
    Seqs.Map(KeyOf, entries)
  }

  /** The keys of a non-empty work list: those before the last entry, then the last. */
  lemma KeysSnoc(entries: seq<Entry>)
    requires entries != []
    ensures Keys(entries) == Keys(entries[..|entries| - 1]) + [entries[|entries| - 1].0]
  {
    var a, b := Keys(entries), Keys(entries[..|entries| - 1]) + [entries[|entries| - 1].0];
    assert |a| == |b|;
    assert forall j :: 0 <= j < |a| ==> a[j] == b[j];
  }

  predicate IsLookup(r: Request) { r.Get? }

  function Lookup(k: string): Request { Get(k) }

  /** Seeding one more entry extends the store, the request log and the hit count by one step. */
  lemma SeedPrefix(objects: map<string, Blob>, entries: seq<Entry>, i: nat)
    requires i < |entries|
    ensures var before, e := SeedAll(objects, entries[..i]), entries[i];
      && SeedAll(objects, entries[..i + 1]) == SeedStep(before, e)
      && SeedLog(objects, entries[..i + 1]) ==
           SeedLog(objects, entries[..i]) + [Get(e.0)] + (if e.0 in before then [] else [Put(e.0)])
      && Hits(objects, entries[..i + 1]) == Hits(objects, entries[..i]) + (if e.0 in before then 1 else 0)
  {
    assert entries[..i + 1][..i] == entries[..i];
  }

  function VideoEntries(items: seq<DemoItem>, render: DemoItem -> Blob): seq<Entry>
  {
    Seqs.Map((d: DemoItem) => (d.key, render(d)), items)
  }

  /** The `for` loop of `seedMockData` over a list of demo videos. */
  method SeedEach(store: Store, items: seq<DemoItem>, render: DemoItem -> Blob)
    requires store.urls.Valid()
    modifies store, store.urls
    ensures store.urls.Valid()
    ensures store.objects == SeedAll(old(store.objects), VideoEntries(items, render))
    ensures store.log == old(store.log) + SeedLog(old(store.objects), VideoEntries(items, render))
    ensures store.urls.next == old(store.urls.next) + Hits(old(store.objects), VideoEntries(items, render))
    ensures forall u :: u in old(store.urls.table) ==>
              u in store.urls.table && store.urls.table[u] == old(store.urls.table[u])
  {
    ghost var entries := VideoEntries(items, render);
    ghost var start := store.objects;
    for i := 0 to |items|
      invariant store.urls.Valid()
      invariant store.objects == SeedAll(start, entries[..i])
      invariant store.log == old(store.log) + SeedLog(start, entries[..i])
      invariant store.urls.next == old(store.urls.next) + Hits(start, entries[..i])
      invariant forall u :: u in old(store.urls.table) ==>
                  u in store.urls.table && store.urls.table[u] == old(store.urls.table[u])
    {
      var item := items[i];
      SeedPrefix(start, entries, i);
      var found := store.GetVideoUrl(item.key);
      if found.None? {
        var blob := render(item);
        store.SaveVideo(item.key, blob);
      }
    }
    assert entries[..|items|] == entries;
  }

  method SeedMockData(store: Store, render: DemoItem -> Blob, audio: Blob)
    requires store.urls.Valid()
    modifies store, store.urls
    ensures store.urls.Valid()
    ensures store.objects == SeedAll(old(store.objects), DemoEntries(render, audio))
    ensures store.log == old(store.log) + SeedLog(old(store.objects), DemoEntries(render, audio))
    ensures store.urls.next == old(store.urls.next) + Hits(old(store.objects), DemoEntries(render, audio))
    ensures forall u :: u in old(store.urls.table) ==>
              u in store.urls.table && store.urls.table[u] == old(store.urls.table[u])
  {
    ghost var entries := DemoEntries(render, audio);
    ghost var start := store.objects;
    SeedEach(store, DemoVideos(), render);
    assert entries[..|DemoVideos()|] == VideoEntries(DemoVideos(), render);
    SeedPrefix(start, entries, |DemoVideos()|);
    assert entries[..|DemoVideos()| + 1] == entries;
    var audioFound := store.GetVideoUrl(AudioKey);
    if audioFound.None? {
      store.SaveVideo(AudioKey, audio);
    }
  }

  /** Every key of the work list holds a blob afterwards. */
  lemma {:induction false} SeedAllFills(objects: map<string, Blob>, entries: seq<Entry>)
    ensures forall j :: 0 <= j < |entries| ==> entries[j].0 in SeedAll(objects, entries)
  {
    if entries != [] {
      var init := entries[..|entries| - 1];
      SeedAllFills(objects, init);
      forall j | 0 <= j < |entries|
        ensures entries[j].0 in SeedAll(objects, entries)
      {
        if j < |init| {
          assert init[j] == entries[j];
        }
      }
    }
  }

  /** A key that already holds a blob is never overwritten. */
  lemma {:induction false} SeedAllKeeps(objects: map<string, Blob>, entries: seq<Entry>, k: string)
    requires k in objects
    ensures k in SeedAll(objects, entries) && SeedAll(objects, entries)[k] == objects[k]
  {
    if entries != [] {
      SeedAllKeeps(objects, entries[..|entries| - 1], k);
    }
  }

  /** A key outside the work list is neither written nor removed. */
  lemma {:induction false} SeedAllOutside(objects: map<string, Blob>, entries: seq<Entry>, k: string)
    requires forall j :: 0 <= j < |entries| ==> entries[j].0 != k
    ensures k in SeedAll(objects, entries) <==> k in objects
    ensures k in objects ==> SeedAll(objects, entries)[k] == objects[k]
  {
    if entries != [] {
      var init := entries[..|entries| - 1];
      assert forall j :: 0 <= j < |init| ==> init[j] == entries[j];
      SeedAllOutside(objects, init, k);
    }
  }

  /** The log saves only keys of the work list, and only ones missing at the start. */
  lemma {:induction false} SeedLogSavesMissing(objects: map<string, Blob>, entries: seq<Entry>)
    ensures forall r :: r in SeedLog(objects, entries) && r.Put? ==>
              r.key !in objects && r.key in Keys(entries)
  {
    if entries != [] {
      var init, e := entries[..|entries| - 1], entries[|entries| - 1];
      SeedLogSavesMissing(objects, init);
      KeysSnoc(entries);
      if e.0 in objects {
        SeedAllKeeps(objects, init, e.0);
      }
    }
  }

  /** One iteration's requests contribute exactly its lookup to the lookups of the log. */
  lemma LookupsOfStep(head: seq<Request>, k: string, saves: seq<Request>)
    requires forall j :: 0 <= j < |saves| ==> saves[j].Put?
    ensures Seqs.Filter(IsLookup, head + [Get(k)] + saves) == Seqs.Filter(IsLookup, head) + [Lookup(k)]
  {
    Seqs.FilterAppend(IsLookup, head + [Get(k)], saves);
    Seqs.FilterAppend(IsLookup, head, [Get(k)]);
    Seqs.FilterEmptyIff(IsLookup, saves);
  }

  /** The lookups happen once per key, in work-list order. */
  lemma {:induction false} SeedLogLookups(objects: map<string, Blob>, entries: seq<Entry>)
    ensures Seqs.Filter(IsLookup, SeedLog(objects, entries)) == Seqs.Map(Lookup, Keys(entries))
  {
    if entries != [] {
      var init, e := entries[..|entries| - 1], entries[|entries| - 1];
      var saves: seq<Request> := if e.0 in SeedAll(objects, init) then [] else [Put(e.0)];
      calc {
        Seqs.Filter(IsLookup, SeedLog(objects, entries));
        Seqs.Filter(IsLookup, SeedLog(objects, init) + [Get(e.0)] + saves);
        { LookupsOfStep(SeedLog(objects, init), e.0, saves); }
        Seqs.Filter(IsLookup, SeedLog(objects, init)) + [Lookup(e.0)];
        { SeedLogLookups(objects, init); }
        Seqs.Map(Lookup, Keys(init)) + [Lookup(e.0)];
        { Seqs.MapAppend(Lookup, Keys(init), [e.0]); }
        Seqs.Map(Lookup, Keys(init) + [e.0]);
        { KeysSnoc(entries); }
        Seqs.Map(Lookup, Keys(entries));
      }
    }
  }

  /** When every key is present, seeding changes nothing, saves nothing and every lookup hits. */
  lemma {:induction false} SeedAllWhenPresent(objects: map<string, Blob>, entries: seq<Entry>)
    requires forall j :: 0 <= j < |entries| ==> entries[j].0 in objects
    ensures SeedAll(objects, entries) == objects
    ensures forall r :: r in SeedLog(objects, entries) ==> r.Get?
    ensures Hits(objects, entries) == |entries|
  {
    if entries != [] {
      var init := entries[..|entries| - 1];
      assert forall j :: 0 <= j < |init| ==> init[j] == entries[j];
      SeedAllWhenPresent(objects, init);
    }
  }

  /** Seeding twice is seeding once, and the second run saves nothing. */
  lemma SeedIdempotent(objects: map<string, Blob>, entries: seq<Entry>)
    ensures SeedAll(SeedAll(objects, entries), entries) == SeedAll(objects, entries)
    ensures forall r :: r in SeedLog(SeedAll(objects, entries), entries) ==> r.Get?
  {
    SeedAllFills(objects, entries);
    SeedAllWhenPresent(SeedAll(objects, entries), entries);
  }

  /** The eight keys the seeder fills: the seven videos in list order, then the audio track. */
  lemma DemoKeysInOrder(render: DemoItem -> Blob, audio: Blob)
    ensures Keys(DemoEntries(render, audio)) ==
      [ "/videos/nana_1.mp4", "/videos/nana_2.mp4", "/videos/nana_3.mp4", "/videos/nana_4.mp4",
        "/videos/nana_5.mp4", "/videos/nana_6.mp4", "/videos/nana_7.mp4", "/audio/demo_track.wav" ]
  {
    var es := DemoEntries(render, audio);
    var ks := Keys(es);
    assert |es| == 8;
    assert ks[7] == es[7].0 == AudioKey;
  }

  /** After `seedMockData`, every demo key holds a blob, and no other key changed. */
  lemma SeedMockDataFills(objects: map<string, Blob>, render: DemoItem -> Blob, audio: Blob, k: string)
    ensures k in Keys(DemoEntries(render, audio)) ==> k in SeedAll(objects, DemoEntries(render, audio))
    ensures k !in Keys(DemoEntries(render, audio)) ==>
              (k in SeedAll(objects, DemoEntries(render, audio)) <==> k in objects)
  {
    var es := DemoEntries(render, audio);
    SeedAllFills(objects, es);
    if k !in Keys(es) {
      assert forall j :: 0 <= j < |es| ==> es[j].0 == Keys(es)[j];
      SeedAllOutside(objects, es, k);
    }
  }
}
