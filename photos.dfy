/** The word-card pool and the random draw from it. */
module Photos {
  import opened Transport

  /** One entry of `photo_file_ids`: the word and the Telegram file id of its card. */
  datatype PhotoEntry = PhotoEntry(word: string, fileId: PhotoRef)

  /** get_random_photo_object: `np.random.randint(0, len(photo_file_ids))` is the index `ix`,
      which the caller supplies; an empty pool has no such index. */
  function GetRandomPhotoObject(pool: seq<PhotoEntry>, ix: nat): (photo: PhotoRef)
    requires ix < |pool|
    ensures exists e :: e in pool && e.fileId == photo
  {
    assert pool[ix] in pool;
    pool[ix].fileId
  }

  /** The draw covers the whole pool: every card has an index that yields it. */
  lemma EveryCardCanBeDrawn(pool: seq<PhotoEntry>, e: PhotoEntry)
    requires e in pool
    ensures exists ix: nat :: ix < |pool| && GetRandomPhotoObject(pool, ix) == e.fileId
  {
    var i :| 0 <= i < |pool| && pool[i] == e;
    assert GetRandomPhotoObject(pool, i) == e.fileId;
  }
}
