/** Image reconciliation in ListingsService.update, and the order in which images are shown. */
module ListingImages {
  import opened Options
  import opened Text

  const MAX_IMAGES: nat := 5

  /** An element of `images` in the request body. */
  datatype ImageInput = Plain(url: string) | Object(url: string, publicId: Option<string>) | Malformed

  datatype Image = Image(url: string, publicId: Option<string>)

  /** A row of `listing_images`. */
  datatype ImageRow = ImageRow(url: string, publicId: Option<string>, order: nat)

  datatype Rejection = BadRequest

  // ----- normalizeImageInputs -----

  function NormalizeOne(input: ImageInput, validUrl: string -> bool): Result<Image, Rejection> {
    if input.Malformed? || !validUrl(Trim(input.url)) then Err(BadRequest)
    else
      var id := if input.Object? && input.publicId.Some? && Trim(input.publicId.value) != ""
                then Some(Trim(input.publicId.value)) else None;
      Ok(Image(Trim(input.url), id))
  }

  function NormalizeAll(inputs: seq<ImageInput>, validUrl: string -> bool): (r: Result<seq<Image>, Rejection>)
    ensures r.Ok? <==> forall i :: 0 <= i < |inputs| ==> NormalizeOne(inputs[i], validUrl).Ok?
    ensures r.Ok? ==> |r.value| == |inputs|
    ensures r.Ok? ==> forall i :: 0 <= i < |inputs| ==> Ok(r.value[i]) == NormalizeOne(inputs[i], validUrl)
  {
    if inputs == [] then Ok([])
    else
      match NormalizeOne(inputs[0], validUrl)
      case Err(e) => Err(e)
      case Ok(image) =>
        match NormalizeAll(inputs[1..], validUrl)
        case Err(e) => Err(e)
        case Ok(rest) => Ok([image] + rest)
  }

  function Normalize(inputs: seq<ImageInput>, validUrl: string -> bool): Result<seq<Image>, Rejection> {
    if |inputs| > MAX_IMAGES then Err(BadRequest) else NormalizeAll(inputs, validUrl)
  }

  // ----- removedImagePublicIds -----

  /** The filter: the row has an asset, and no new image names it by id or by URL. */
  predicate Drops(row: ImageRow, next: seq<Image>) {
    && row.publicId.Some? && row.publicId.value != ""
    && !exists i :: 0 <= i < |next| && (next[i].publicId == row.publicId || next[i].url == row.url)
  }

  function Removed(existing: seq<ImageRow>, next: seq<Image>): seq<string> {
    if existing == [] then []
    else (if Drops(existing[0], next) then [existing[0].publicId.value] else []) + Removed(existing[1..], next)
  }

  lemma {:induction false} RemovedExactly(existing: seq<ImageRow>, next: seq<Image>, id: string)
    ensures id in Removed(existing, next) <==> exists row :: row in existing && row.publicId == Some(id) && Drops(row, next)
  {
    if existing != [] {
      var rest := existing[1..];
      RemovedExactly(rest, next, id);
      assert forall row :: row in existing <==> row == existing[0] || row in rest;
      assert id in Removed(existing, next) <==>
             (Drops(existing[0], next) && existing[0].publicId == Some(id)) || id in Removed(rest, next);
    }
  }

  /** The rows that the transaction writes back. */
  function Stored(next: seq<Image>): seq<ImageRow> {
    seq(|next|, i requires 0 <= i < |next| => ImageRow(next[i].url, next[i].publicId, i))
  }

  predicate KeepsUrl(next: seq<Image>, url: string) {
    exists i :: 0 <= i < |next| && next[i].url == url
  }

  predicate KeepsId(next: seq<Image>, id: string) {
    exists i :: 0 <= i < |next| && next[i].publicId == Some(id)
  }

  /** An asset is destroyed if and only if some old row with it lost its URL and no new image names
      the asset.  So no stored row refers to a destroyed asset, and every asset that is dropped
      together with its URL is destroyed. */
  lemma ReconciliationIsExact(existing: seq<ImageRow>, next: seq<Image>, id: string)
    requires id != ""
    ensures
      id in Removed(existing, next) <==>
      !KeepsId(next, id) && exists row :: row in existing && row.publicId == Some(id) && !KeepsUrl(next, row.url)
    ensures id in Removed(existing, next) ==> forall row :: row in Stored(next) ==> row.publicId != Some(id)
  {
    RemovedExactly(existing, next, id);
    if exists row :: row in existing && row.publicId == Some(id) && !KeepsUrl(next, row.url) && !KeepsId(next, id) {
      var row :| row in existing && row.publicId == Some(id) && !KeepsUrl(next, row.url) && !KeepsId(next, id);
      assert Drops(row, next);
    }
    if id in Removed(existing, next) {
      var row :| row in existing && row.publicId == Some(id) && Drops(row, next);
      assert !KeepsId(next, id) && !KeepsUrl(next, row.url);
      forall stored | stored in Stored(next)
        ensures stored.publicId != Some(id)
      {
        var i :| 0 <= i < |next| && Stored(next)[i] == stored;
        assert next[i].publicId == stored.publicId;
      }
    }
  }

  /** A URL that stays can still lose its asset: two old rows share an asset, and the request keeps
      one of their URLs without the id. */
  lemma KeptUrlLosesAsset(id: string, kept: string, dropped: string)
    requires id != "" && kept != dropped
    ensures
      var existing := [ImageRow(kept, Some(id), 0), ImageRow(dropped, Some(id), 1)];
      var next := [Image(kept, None)];
      Removed(existing, next) == [id] && Stored(next)[0].url == kept
  {
    var existing := [ImageRow(kept, Some(id), 0), ImageRow(dropped, Some(id), 1)];
    var next := [Image(kept, None)];
    assert next[0].url == kept;
    assert existing[1..] == [existing[1]] && existing[1..][1..] == [];
    assert !Drops(existing[0], next) && Drops(existing[1], next);
    assert Removed(existing[1..], next) == [id] + Removed([], next) == [id];
    assert Removed(existing, next) == [] + [id];
  }

  /** Exactly then: the asset behind a kept URL survives unless no new image names it and another
      old row had it under a URL that goes. */
  lemma KeptUrlKeepsAsset(existing: seq<ImageRow>, next: seq<Image>, row: ImageRow)
    requires row in existing && row.publicId.Some? && row.publicId.value != "" && KeepsUrl(next, row.url)
    ensures
      row.publicId.value in Removed(existing, next) <==>
      !KeepsId(next, row.publicId.value)
      && exists other :: other in existing && other != row && other.publicId == row.publicId && !KeepsUrl(next, other.url)
  {
    ReconciliationIsExact(existing, next, row.publicId.value);
  }

  // ----- the image part of update -----

  predicate Acceptable(inputs: seq<ImageInput>, validUrl: string -> bool) {
    && |inputs| <= 5
    && forall i :: 0 <= i < |inputs| ==> !inputs[i].Malformed? && validUrl(Trim(inputs[i].url))
  }

  /** The element names the asset, after trimming. */
  predicate Names(input: ImageInput, id: string) {
    input.Object? && input.publicId.Some? && Trim(input.publicId.value) == id
  }

  /** The rows that replace the old ones and the assets that are destroyed, in terms of the request. */
  method ReplaceImages(existing: seq<ImageRow>, inputs: seq<ImageInput>, validUrl: string -> bool)
    returns (r: Result<(seq<ImageRow>, seq<string>), Rejection>)
    ensures r.Ok? <==> Acceptable(inputs, validUrl)
    ensures r.Ok? ==>
      && |r.value.0| == |inputs|
      && (forall i :: 0 <= i < |inputs| ==> r.value.0[i].url == Trim(inputs[i].url) && r.value.0[i].order == i)
      && (forall i, id :: 0 <= i < |inputs| && id != "" ==> (r.value.0[i].publicId == Some(id) <==> Names(inputs[i], id)))
      && (forall i :: 0 <= i < |inputs| ==> r.value.0[i].publicId != Some(""))
    ensures r.Ok? ==> forall id :: id != "" ==>
      (id in r.value.1 <==>
         && (forall i :: 0 <= i < |inputs| ==> !Names(inputs[i], id))
         && exists row :: row in existing && row.publicId == Some(id)
                          && forall i :: 0 <= i < |inputs| ==> Trim(inputs[i].url) != row.url)
    ensures r.Ok? ==> "" !in r.value.1
    ensures r.Ok? ==> forall row, id :: row in r.value.0 && row.publicId == Some(id) ==> id !in r.value.1
  {
    var normalized := Normalize(inputs, validUrl);
    if normalized.Err? {
      return Err(BadRequest);
    }
    var next := normalized.value;
    forall id | id != "" {
      ReconciliationIsExact(existing, next, id);
    }
    assert "" !in Removed(existing, next) by { RemovedExactly(existing, next, ""); }
    forall i, id | 0 <= i < |inputs| && id != ""
      ensures next[i].publicId == Some(id) <==> Names(inputs[i], id)
    {
    }
    r := Ok((Stored(next), Removed(existing, next)));
  }

  // ----- updates that overlap -----

  /** One request: the rows it read at its start and the images it writes. */
  datatype Update = Update(existing: seq<ImageRow>, next: seq<Image>)

  /** The asset has been destroyed by one of the updates. */
  predicate DestroyedBy(updates: seq<Update>, id: string) {
    exists k :: 0 <= k < |updates| && id in Removed(updates[k].existing, updates[k].next)
  }

  /** The rows that are stored once the updates have committed in this order. */
  function StoredAfter(updates: seq<Update>): seq<ImageRow>
    requires updates != []
  {
    Stored(updates[|updates| - 1].next)
  }

  predicate RowNames(rows: seq<ImageRow>, id: string) {
    exists row :: row in rows && row.publicId == Some(id)
  }

  lemma StoredNames(next: seq<Image>, id: string)
    ensures RowNames(Stored(next), id) <==> KeepsId(next, id)
  {
    if RowNames(Stored(next), id) {
      var row :| row in Stored(next) && row.publicId == Some(id);
      var i :| 0 <= i < |next| && Stored(next)[i] == row;
      assert next[i].publicId == Some(id);
    }
    if KeepsId(next, id) {
      var i :| 0 <= i < |next| && next[i].publicId == Some(id);
      assert Stored(next)[i] in Stored(next);
    }
  }

  /** The request read a row with the asset, drops its URL, and does not name the asset. */
  predicate DropsAsset(u: Update, id: string) {
    && !KeepsId(u.next, id)
    && exists row :: row in u.existing && row.publicId == Some(id) && !KeepsUrl(u.next, row.url)
  }

  /** However requests overlap, a stored row is left without its asset if and only if the request that
      commits last names an asset that an earlier one drops. */
  lemma OverlapExactly(updates: seq<Update>, id: string)
    requires updates != [] && id != ""
    ensures
      var last := |updates| - 1;
      RowNames(StoredAfter(updates), id) && DestroyedBy(updates, id) <==>
      KeepsId(updates[last].next, id) && exists k :: 0 <= k < last && DropsAsset(updates[k], id)
  {
    var last := |updates| - 1;
    StoredNames(updates[last].next, id);
    forall k | 0 <= k <= last
      ensures id in Removed(updates[k].existing, updates[k].next) <==> DropsAsset(updates[k], id)
    {
      ReconciliationIsExact(updates[k].existing, updates[k].next, id);
    }
    if DestroyedBy(updates, id) && KeepsId(updates[last].next, id) {
      var k :| 0 <= k < |updates| && id in Removed(updates[k].existing, updates[k].next);
      assert DropsAsset(updates[k], id) && k != last;
    }
  }

  /** Each request starts after the one before it has committed, and names only assets that its rows
      have or that nobody has destroyed. */
  ghost predicate OneByOne(updates: seq<Update>) {
    && (forall k :: 0 < k < |updates| ==> updates[k].existing == Stored(updates[k - 1].next))
    && (forall k, id :: 0 <= k < |updates| && KeepsId(updates[k].next, id) ==>
          (k > 0 && RowNames(updates[k].existing, id)) || !DestroyedBy(updates[..k], id))
  }

  /** Then every stored row keeps its asset. */
  lemma {:induction false} OneByOneKeepsAssets(updates: seq<Update>, id: string)
    requires updates != [] && OneByOne(updates) && id != "" && RowNames(StoredAfter(updates), id)
    ensures !DestroyedBy(updates, id)
  {
    var n := |updates| - 1;
    StoredNames(updates[n].next, id);
    ReconciliationIsExact(updates[n].existing, updates[n].next, id);
    if DestroyedBy(updates, id) {
      var k :| 0 <= k < |updates| && id in Removed(updates[k].existing, updates[k].next);
      assert updates[..n][k] == updates[k];
      assert DestroyedBy(updates[..n], id);
    }
    if n > 0 && RowNames(updates[n].existing, id) {
      var earlier := updates[..n];
      assert earlier[n - 1] == updates[n - 1];
      forall k, other | 0 <= k < n && KeepsId(earlier[k].next, other)
        ensures (k > 0 && RowNames(earlier[k].existing, other)) || !DestroyedBy(earlier[..k], other)
      {
        assert earlier[..k] == updates[..k] && earlier[k] == updates[k];
      }
      forall k | 0 < k < n
        ensures earlier[k].existing == Stored(earlier[k - 1].next)
      {
        assert earlier[k] == updates[k] && earlier[k - 1] == updates[k - 1];
      }
      OneByOneKeepsAssets(earlier, id);
    }
  }

  /** Overlapping, they need not: two requests read the same row, one drops it and the other keeps it. */
  lemma OverlapLosesAsset(url: string, other: string, id: string)
    requires id != "" && url != other
    ensures
      var rows := [ImageRow(url, Some(id), 0)];
      var updates := [Update(rows, [Image(other, None)]), Update(rows, [Image(url, Some(id))])];
      RowNames(StoredAfter(updates), id) && DestroyedBy(updates, id)
  {
    var rows := [ImageRow(url, Some(id), 0)];
    var drops, keeps := Update(rows, [Image(other, None)]), Update(rows, [Image(url, Some(id))]);
    var updates := [drops, keeps];
    assert rows[0] in rows && keeps.next[0].publicId == Some(id);
    assert DropsAsset(updates[0], id);
    OverlapExactly(updates, id);
  }

  // ----- display order -----

  predicate InOrder(rows: seq<ImageRow>) {
    forall i, j :: 0 <= i < j < |rows| ==> rows[i].order <= rows[j].order
  }

  function Urls(rows: seq<ImageRow>): seq<string> {
    seq(|rows|, i requires 0 <= i < |rows| => rows[i].url)
  }

  predicate DistinctOrders(rows: seq<ImageRow>) {
    forall i, j :: 0 <= i < j < |rows| ==> rows[i].order != rows[j].order
  }

  /** Rows with distinct orders have one sorted arrangement. */
  lemma {:induction false} SortedIsUnique(a: seq<ImageRow>, b: seq<ImageRow>)
    requires multiset(a) == multiset(b) && InOrder(a) && InOrder(b) && DistinctOrders(b)
    ensures a == b
  {
    SameLength(a, b);
    if a != [] {
      SameHead(a, b);
      TailRows(a);
      TailRows(b);
      SortedIsUnique(a[1..], b[1..]);
      assert a == [a[0]] + a[1..] && b == [b[0]] + b[1..];
    }
  }

  lemma TailRows(a: seq<ImageRow>)
    requires a != []
    ensures multiset(a[1..]) == multiset(a) - multiset{a[0]}
  {
    assert a == [a[0]] + a[1..];
  }

  lemma SameLength(a: seq<ImageRow>, b: seq<ImageRow>)
    requires multiset(a) == multiset(b)
    ensures |a| == |b|
  {
    assert |a| == |multiset(a)| && |b| == |multiset(b)|;
  }

  lemma SameHead(a: seq<ImageRow>, b: seq<ImageRow>)
    requires multiset(a) == multiset(b) && InOrder(a) && InOrder(b) && DistinctOrders(b) && a != [] && b != []
    ensures a[0] == b[0]
  {
    assert a[0] in multiset(a) && b[0] in multiset(b);
    assert a[0] in b && b[0] in a;
    var i :| 0 <= i < |b| && b[i] == a[0];
    var j :| 0 <= j < |a| && a[j] == b[0];
    assert a[0].order <= a[j].order && b[0].order <= b[i].order;
  }

  /** However the database returns the rows and however they are sorted by `order`, the page shows
      the URLs in the order of the request. */
  lemma OrderRoundTrip(next: seq<Image>, fetched: seq<ImageRow>, sorted: seq<ImageRow>)
    requires multiset(fetched) == multiset(Stored(next))
    requires multiset(sorted) == multiset(fetched) && InOrder(sorted)
    ensures |Urls(sorted)| == |next| && forall i :: 0 <= i < |next| ==> Urls(sorted)[i] == next[i].url
  {
    SortedIsUnique(sorted, Stored(next));
  }
}
