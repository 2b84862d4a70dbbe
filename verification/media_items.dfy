/**
 * The media-item decoder of `media_items/__init__.py`: `media_from_dict`
 * decides which record class a raw payload decodes to, and `is_track`
 * tests an item's media type.
 *
 * Each record class's own `from_dict` belongs to a serialization library
 * and is not modelled: decoding to class C is represented by the value
 * `Decoded(C, payload)`, read "C.from_dict(payload)".
 */
module MediaItems {
  import opened Wrappers
  import opened Values
  import opened Enums

  /** The record classes a media payload can decode to. */
  datatype ItemClass =
    | ItemMapping
    | ArtistItem | AlbumItem | TrackItem | PlaylistItem | RadioItem
    | AudiobookItem | ChapterItem | PodcastItem | EpisodeItem
    | PlaylistTrackItem | BrowseFolderItem

  /** The call `cls.from_dict(payload)` that the decoder hands the payload to. */
  datatype Decoded = Decoded(cls: ItemClass, payload: Payload)

  /** The two ways decoding can fail. */
  datatype DecodeError =
    | KeyError(key: string)              // a subscript on a missing key
    | InvalidDataError(message: string)  // the payload cannot be classified

  const ProviderMappingsKey: string := "provider_mappings"
  const MediaTypeKey: string := "media_type"
  const UnknownMediaType: string := "Unknown media type"

  /**
   * The tags the decoder dispatches on, in the order it tests them, each
   * with the class it decodes to. This is the reference definition the
   * decoder is proved against.
   */
  const DispatchTable: seq<(string, ItemClass)> := [
    ("artist", ArtistItem),
    ("album", AlbumItem),
    ("track", TrackItem),
    ("playlist", PlaylistItem),
    ("radio", RadioItem),
    ("audiobook", AudiobookItem),
    ("chapter", ChapterItem),
    ("podcast", PodcastItem),
    ("episode", EpisodeItem)
  ]

  /** The class of the first entry whose tag equals `v`, if any. */
  function Lookup(table: seq<(string, ItemClass)>, v: Value): (found: Option<ItemClass>)
  {
    if table == [] then None
    else if v == Str(table[0].0) then Some(table[0].1)
    else Lookup(table[1..], v)
  }

  /** No two entries of the table share a tag. */
  ghost predicate DistinctTags(table: seq<(string, ItemClass)>) {
    forall i, j :: 0 <= i < j < |table| ==> table[i].0 != table[j].0
  }

  /** A value the decoder dispatches on. */
  ghost predicate IsDispatchedTag(v: Value) {
    exists i :: 0 <= i < |DispatchTable| && v == Str(DispatchTable[i].0)
  }

  /**
   * `media_from_dict`: a payload without `provider_mappings` is a reference
   * (ItemMapping) whatever its media type; otherwise its `media_type` is
   * compared with the nine dispatched tags in turn, and anything else is
   * rejected.
   */
  function MediaFromDict(p: Payload): (r: Result<Decoded, DecodeError>)
    ensures ProviderMappingsKey !in p ==> r == Ok(Decoded(ItemMapping, p))
    ensures r.Ok? ==> r.value.payload == p
    ensures r.Ok? ==> r.value.cls !in {PlaylistTrackItem, BrowseFolderItem}
    ensures r.Err? ==> ProviderMappingsKey in p
    ensures r.Err? ==> r.error in {KeyError(MediaTypeKey), InvalidDataError(UnknownMediaType)}
  {
    if ProviderMappingsKey !in p then Ok(Decoded(ItemMapping, p))
    else if MediaTypeKey !in p then Err(KeyError(MediaTypeKey))
    else
      var tag := p[MediaTypeKey];
      if tag == Str("artist") then Ok(Decoded(ArtistItem, p))
      else if tag == Str("album") then Ok(Decoded(AlbumItem, p))
      else if tag == Str("track") then Ok(Decoded(TrackItem, p))
      else if tag == Str("playlist") then Ok(Decoded(PlaylistItem, p))
      else if tag == Str("radio") then Ok(Decoded(RadioItem, p))
      else if tag == Str("audiobook") then Ok(Decoded(AudiobookItem, p))
      else if tag == Str("chapter") then Ok(Decoded(ChapterItem, p))
      else if tag == Str("podcast") then Ok(Decoded(PodcastItem, p))
      else if tag == Str("episode") then Ok(Decoded(EpisodeItem, p))
      else Err(InvalidDataError(UnknownMediaType))
  }

  // ---------------------------------------------------------------------
  // The lookup table and its properties

  /** A successful lookup found an entry whose tag is the value. */
  lemma {:induction false} LookupSound(table: seq<(string, ItemClass)>, v: Value)
    ensures Lookup(table, v).Some? ==>
      exists i :: 0 <= i < |table| && v == Str(table[i].0) && Lookup(table, v).value == table[i].1
  {
    if table != [] && v != Str(table[0].0) {
      LookupSound(table[1..], v);
      if Lookup(table, v).Some? {
        var i :| 0 <= i < |table[1..]| && v == Str(table[1..][i].0) && Lookup(table, v).value == table[1..][i].1;
        assert table[i + 1] == table[1..][i];
      }
    }
  }

  /** Every entry of a table with distinct tags is found by its tag. */
  lemma {:induction false} LookupFinds(table: seq<(string, ItemClass)>, i: nat)
    requires DistinctTags(table)
    requires i < |table|
    ensures Lookup(table, Str(table[i].0)) == Some(table[i].1)
  {
    if i > 0 {
      assert table[0].0 != table[i].0;
      assert table[1..][i - 1] == table[i];
      LookupFinds(table[1..], i - 1);
    }
  }

  /** A value that is no entry's tag is not found. */
  lemma {:induction false} LookupMisses(table: seq<(string, ItemClass)>, v: Value)
    requires forall i :: 0 <= i < |table| ==> v != Str(table[i].0)
    ensures Lookup(table, v) == None
  {
    if table != [] {
      assert v != Str(table[0].0);
      forall i | 0 <= i < |table[1..]| ensures v != Str(table[1..][i].0) {
        assert table[1..][i] == table[i + 1];
      }
      LookupMisses(table[1..], v);
    }
  }

  /**
   * The dispatch is deterministic: the nine tags are distinct, each tag names
   * exactly one class, and distinct tags name distinct classes.
   */
  lemma DispatchTableDistinct()
    ensures |DispatchTable| == 9
    ensures DistinctTags(DispatchTable)
    ensures forall i, j :: 0 <= i < j < |DispatchTable| ==> DispatchTable[i].1 != DispatchTable[j].1
    ensures forall i :: 0 <= i < |DispatchTable| ==>
      DispatchTable[i].1 !in {ItemMapping, PlaylistTrackItem, BrowseFolderItem}
  {
  }

  // ---------------------------------------------------------------------
  // The decoder against the table

  /**
   * With `provider_mappings` and `media_type` both present, the decoder
   * returns the class the table gives for the tag, or rejects the payload
   * as of unknown media type when the table has no such tag.
   */
  lemma MediaFromDictMatchesTable(p: Payload)
    requires ProviderMappingsKey in p && MediaTypeKey in p
    ensures MediaFromDict(p) ==
      match Lookup(DispatchTable, p[MediaTypeKey])
      case Some(cls) => Ok(Decoded(cls, p))
      case None => Err(InvalidDataError(UnknownMediaType))
  {
    var t, v := DispatchTable, p[MediaTypeKey];
    assert t[0..][1..] == t[1..];
    assert Lookup(t[0..], v) == if v == Str(t[0].0) then Some(t[0].1) else Lookup(t[1..], v);
    assert t[1..][1..] == t[2..];
    assert Lookup(t[1..], v) == if v == Str(t[1].0) then Some(t[1].1) else Lookup(t[2..], v);
    assert t[2..][1..] == t[3..];
    assert Lookup(t[2..], v) == if v == Str(t[2].0) then Some(t[2].1) else Lookup(t[3..], v);
    assert t[3..][1..] == t[4..];
    assert Lookup(t[3..], v) == if v == Str(t[3].0) then Some(t[3].1) else Lookup(t[4..], v);
    assert t[4..][1..] == t[5..];
    assert Lookup(t[4..], v) == if v == Str(t[4].0) then Some(t[4].1) else Lookup(t[5..], v);
    assert t[5..][1..] == t[6..];
    assert Lookup(t[5..], v) == if v == Str(t[5].0) then Some(t[5].1) else Lookup(t[6..], v);
    assert t[6..][1..] == t[7..];
    assert Lookup(t[6..], v) == if v == Str(t[6].0) then Some(t[6].1) else Lookup(t[7..], v);
    assert t[7..][1..] == t[8..];
    assert Lookup(t[7..], v) == if v == Str(t[7].0) then Some(t[7].1) else Lookup(t[8..], v);
    assert t[8..][1..] == t[9..];
    assert Lookup(t[8..], v) == if v == Str(t[8].0) then Some(t[8].1) else Lookup(t[9..], v);
    assert t[9..] == [];
  }

  /** A full payload whose tag is the i-th dispatched tag decodes to the i-th class. */
  lemma DecodesDispatchedTag(p: Payload, i: nat)
    requires ProviderMappingsKey in p
    requires i < |DispatchTable|
    requires MediaTypeKey in p && p[MediaTypeKey] == Str(DispatchTable[i].0)
    ensures MediaFromDict(p) == Ok(Decoded(DispatchTable[i].1, p))
  {
    DispatchTableDistinct();
    LookupFinds(DispatchTable, i);
    MediaFromDictMatchesTable(p);
  }

  /** A full payload whose media type is none of the nine tags is rejected. */
  lemma RejectsUnknownTag(p: Payload)
    requires ProviderMappingsKey in p && MediaTypeKey in p
    requires !IsDispatchedTag(p[MediaTypeKey])
    ensures MediaFromDict(p) == Err(InvalidDataError(UnknownMediaType))
  {
    LookupMisses(DispatchTable, p[MediaTypeKey]);
    MediaFromDictMatchesTable(p);
  }

  /** A full payload without a media type fails on the lookup of that key. */
  lemma MissingMediaTypeIsKeyError(p: Payload)
    requires ProviderMappingsKey in p && MediaTypeKey !in p
    ensures MediaFromDict(p) == Err(KeyError(MediaTypeKey))
  {
  }

  /**
   * The pseudo-types `playlist_track` and `browse_folder` are not dispatched:
   * a full payload carrying either tag is rejected, not decoded.
   */
  lemma RejectsPlaylistTrackAndBrowseFolder(p: Payload)
    requires ProviderMappingsKey in p && MediaTypeKey in p
    requires p[MediaTypeKey] == Str("playlist_track") || p[MediaTypeKey] == Str("browse_folder")
    ensures MediaFromDict(p) == Err(InvalidDataError(UnknownMediaType))
  {
    RejectsUnknownTag(p);
  }

  /**
   * The decoder succeeds exactly on references and on full payloads with a
   * dispatched tag, and a decoded full item's class is the one the table
   * pairs with the payload's tag.
   */
  lemma DecodeSucceedsIff(p: Payload)
    ensures MediaFromDict(p).Ok? <==>
      (ProviderMappingsKey !in p || (MediaTypeKey in p && IsDispatchedTag(p[MediaTypeKey])))
    ensures MediaFromDict(p).Ok? && ProviderMappingsKey in p ==>
      MediaTypeKey in p && p[MediaTypeKey].Str? &&
      (p[MediaTypeKey].s, MediaFromDict(p).value.cls) in DispatchTable
  {
    if ProviderMappingsKey in p && MediaTypeKey in p {
      MediaFromDictMatchesTable(p);
      if IsDispatchedTag(p[MediaTypeKey]) {
        var i :| 0 <= i < |DispatchTable| && p[MediaTypeKey] == Str(DispatchTable[i].0);
        DecodesDispatchedTag(p, i);
      } else {
        RejectsUnknownTag(p);
      }
      LookupSound(DispatchTable, p[MediaTypeKey]);
    }
  }

  // ---------------------------------------------------------------------
  // is_track

  /** The part of a media item `is_track` reads: its class and its media type. */
  datatype MediaItem = MediaItem(cls: ItemClass, mediaType: MediaType)

  /** `is_track`: the item's media type is TRACK. */
  function IsTrack(item: MediaItem): (r: bool)
    ensures r <==> item.mediaType == Track
  {
    item.mediaType == Track
  }

  /**
   * `is_track` looks at the media type only, never at the record class: a
   * reference whose media type is TRACK passes it, and a Track record whose
   * media type field says otherwise does not.
   */
  lemma IsTrackIgnoresClass(cls: ItemClass, other: ItemClass, t: MediaType)
    ensures IsTrack(MediaItem(cls, t)) == IsTrack(MediaItem(other, t))
    ensures IsTrack(MediaItem(ItemMapping, Track))
  {
  }
}
