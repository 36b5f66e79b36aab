/** The cabin upsert planner of `createEditCabin`.

    It decides whether the cabin's image has to be uploaded, names and
    addresses the uploaded object, and then inserts or updates the cabin
    row with the image field rewritten. The storage and table calls a run
    issues are recorded, in order, as `Call`s; the backend's answers, the
    project URL and the random prefix of `Math.random()` are parameters. */
module Cabins {
  import opened Results
  import opened Strings

  /** A file chosen in the browser; the flow reads only its name. */
  datatype File = File(name: string)

  /** What a cabin's `image` field holds. */
  datatype Image =
    | NoImage            // `null` or `undefined`
    | Address(s: string) // a string, normally the public address of a stored object
    | Picked(file: File) // a file waiting to be uploaded

  /** The cabin fields the form edits; numbers are absent when left empty. */
  datatype CabinData = CabinData(
    name: string,
    maxCapacity: Option<int>,
    regularPrice: Option<int>,
    discount: Option<int>,
    description: string,
    image: Image)

  /** A row of the `cabins` table. */
  datatype Cabin = Cabin(id: Option<int>, data: CabinData)

  const Bucket := "cabin-images"
  const PublicFolder := "/storage/v1/object/public/cabin-images/"
  const UploadFailedMessage := "Image upload failed"
  const WriteFailedMessage := "Cabin could not be created/edited"

  /** A backend call: an upload to the object store, or a write to `cabins`. */
  datatype Call =
    | UploadCall(bucket: string, objectName: string, body: Image)
    | InsertCall(row: CabinData)          // `insert([row])`
    | UpdateCall(row: CabinData, id: int) // `update(row).eq("id", id)`
  {
    predicate IsWrite() {
      InsertCall? || UpdateCall?
    }
  }

  datatype UploadReply = UploadOk | UploadFailed(reason: string)
  datatype WriteReply = Written(rows: seq<Cabin>) | WriteFailed(reason: string)

  /** The calls a run issued, in order, and what it returned or threw. */
  datatype Run = Run(calls: seq<Call>, result: Result<seq<Cabin>>)

  /** `image?.startsWith?.(supabaseUrl)`: only a string can already be a
      stored address. */
  predicate HasImagePath(image: Image, supabaseUrl: string): (stored: bool)
    ensures image.NoImage? || image.Picked? ==> !stored
    ensures image.Address? ==> (stored <==> StartsWith(image.s, supabaseUrl))
  {
    image.Address? && StartsWith(image.s, supabaseUrl)
  }

  /** JavaScript truthiness of the `image` field. */
  predicate IsTruthy(image: Image): (truthy: bool)
    ensures truthy <==> image != NoImage && image != Address("")
  {
    image.Picked? || (image.Address? && image.s != "")
  }

  /** `!hasImagePath && newCabin.image`: the upload branch is taken. */
  predicate NeedsUpload(image: Image, supabaseUrl: string): (upload: bool)
    ensures image.Picked? ==> upload
    ensures image.NoImage? ==> !upload
    ensures image.Address? ==> (upload <==> image.s != "" && !StartsWith(image.s, supabaseUrl))
  {
    !HasImagePath(image, supabaseUrl) && IsTruthy(image)
  }

  /** `image.name`: a file's name; a string has no `name` and interpolates
      as "undefined". */
  function NameOf(image: Image): (name: string)
    ensures image.Picked? ==> name == image.file.name
    ensures image.Address? ==> name == "undefined"
  {
    if image.Picked? then image.file.name else "undefined"
  }

  /** `${random}-${image.name}` with every "/" removed. */
  function ObjectName(random: string, image: Image): (name: string)
    ensures '/' !in name
    ensures multiset(name) == multiset(random + "-" + NameOf(image))['/' := 0]
  {
    RemoveAll(random + "-" + NameOf(image), '/')
  }

  /** The generated name is the random prefix and the file name, each with
      its slashes removed, joined by "-". */
  lemma {:induction false} ObjectNameParts(random: string, image: Image)
    ensures ObjectName(random, image) == RemoveAll(random, '/') + "-" + RemoveAll(NameOf(image), '/')
  {
    RemoveAllConcat(random + "-", NameOf(image), '/');
    RemoveAllConcat(random, "-", '/');
  }

  /** Without slashes in its parts, the name is exactly `<random>-<name>`. */
  lemma ObjectNameWithoutSlashes(random: string, image: Image)
    requires '/' !in random && '/' !in NameOf(image)
    ensures ObjectName(random, image) == random + "-" + NameOf(image)
  {
    ObjectNameParts(random, image);
  }

  /** The public address of an object of the `cabin-images` bucket. */
  function PublicPath(supabaseUrl: string, objectName: string): (path: string)
    ensures StartsWith(path, supabaseUrl + PublicFolder)
    ensures StartsWith(path, supabaseUrl)
    ensures |path| == |supabaseUrl| + |PublicFolder| + |objectName|
  {
    StartsWithConcat(supabaseUrl + PublicFolder, objectName);
    StartsWithShorter(supabaseUrl + PublicFolder + objectName, supabaseUrl, PublicFolder);
    supabaseUrl + PublicFolder + objectName
  }

  /** The object a public address under `supabaseUrl` names, if it is one. */
  function ObjectNameAt(supabaseUrl: string, path: string): (name: Option<string>)
    ensures name.Some? ==> PublicPath(supabaseUrl, name.value) == path
    ensures name.None? ==> !StartsWith(path, supabaseUrl + PublicFolder)
  {
    var base := supabaseUrl + PublicFolder;
    if StartsWith(path, base) then
      assert path == base + path[|base|..];
      Some(path[|base|..])
    else None
  }

  /** Reading the object name back from its public address. */
  lemma PublicPathRoundTrip(supabaseUrl: string, objectName: string)
    ensures ObjectNameAt(supabaseUrl, PublicPath(supabaseUrl, objectName)) == Some(objectName)
  {
    var base := supabaseUrl + PublicFolder;
    assert PublicPath(supabaseUrl, objectName)[|base|..] == objectName;
  }

  /** How the image is settled: kept as it is, or uploaded under a
      generated name and replaced by its public address. */
  datatype ImagePlan = Keep(image: Image) | UploadAs(objectName: string, path: string)

  function PlanImage(image: Image, supabaseUrl: string, random: string): (p: ImagePlan)
    ensures p.Keep? <==> !NeedsUpload(image, supabaseUrl)
    ensures p.Keep? ==> p.image == image
    ensures p.UploadAs? ==> '/' !in p.objectName && p.objectName == ObjectName(random, image)
    ensures p.UploadAs? ==> StartsWith(p.path, supabaseUrl)
    ensures p.UploadAs? ==> ObjectNameAt(supabaseUrl, p.path) == Some(p.objectName)
  {
    if NeedsUpload(image, supabaseUrl) then
      var name := ObjectName(random, image);
      PublicPathRoundTrip(supabaseUrl, name);
      UploadAs(name, PublicPath(supabaseUrl, name))
    else Keep(image)
  }

  /** `imagePath`: what the written row's `image` field holds. */
  function ImagePath(image: Image, supabaseUrl: string, random: string): (path: Image)
    ensures !NeedsUpload(image, supabaseUrl) ==> path == image
    ensures NeedsUpload(image, supabaseUrl) ==>
              && path.Address?
              && StartsWith(path.s, supabaseUrl)
              && ObjectNameAt(supabaseUrl, path.s) == Some(ObjectName(random, image))
  {
    match PlanImage(image, supabaseUrl, random)
    case Keep(kept) => kept
    case UploadAs(_, path) => Address(path)
  }

  /** The address written for an image needs no upload when submitted again. */
  lemma WrittenImageNeedsNoUpload(image: Image, supabaseUrl: string, random: string)
    ensures !NeedsUpload(ImagePath(image, supabaseUrl, random), supabaseUrl)
  {
  }

  /** The single write: an insert without a truthy id, an update of that id
      otherwise, carrying the record with only its image replaced. */
  function WriteCall(newCabin: CabinData, imagePath: Image, id: Option<int>): (c: Call)
    ensures c.IsWrite()
    ensures c.InsertCall? <==> !TruthyNumber(id)
    ensures c.UpdateCall? ==> c.id == id.value
    ensures c.row.image == imagePath
    ensures c.row.(image := newCabin.image) == newCabin
  {
    var row := newCabin.(image := imagePath);
    if TruthyNumber(id) then UpdateCall(row, id.value) else InsertCall(row)
  }

  /** `createEditCabin(newCabin, id)`. */
  function CreateEditCabin(
    newCabin: CabinData, id: Option<int>, supabaseUrl: string, random: string,
    upload: UploadReply, write: WriteReply): (run: Run)
    // an upload is the first call exactly when the image is truthy and not yet stored
    ensures |run.calls| >= 1
    ensures run.calls[0].UploadCall? <==> NeedsUpload(newCabin.image, supabaseUrl)
    ensures run.calls[0].UploadCall? ==>
              run.calls[0] == UploadCall(Bucket, ObjectName(random, newCabin.image), newCabin.image)
    // without an upload the record is written exactly as given
    ensures !run.calls[0].UploadCall? ==> |run.calls| == 1 && run.calls[0].row == newCabin
    // a failed upload ends the run before any write
    ensures run.calls[0].UploadCall? && upload.UploadFailed? ==>
              |run.calls| == 1 && run.result == Err(UploadFailedMessage)
    // otherwise exactly one write follows, and it is the last call
    ensures !(run.calls[0].UploadCall? && upload.UploadFailed?) ==>
              && run.calls[|run.calls| - 1].IsWrite()
              && (forall i :: 0 <= i < |run.calls| - 1 ==> !run.calls[i].IsWrite())
              && (run.calls[|run.calls| - 1].InsertCall? <==> !TruthyNumber(id))
              && (run.calls[|run.calls| - 1].UpdateCall? ==> run.calls[|run.calls| - 1].id == id.value)
              && run.calls[|run.calls| - 1].row.(image := newCabin.image) == newCabin
              && (write.WriteFailed? ==> run.result == Err(WriteFailedMessage))
              && (write.Written? ==> run.result == Ok(write.rows))
  {
    var plan := PlanImage(newCabin.image, supabaseUrl, random);
    var writeCall := WriteCall(newCabin, ImagePath(newCabin.image, supabaseUrl, random), id);
    var result := match write
      case WriteFailed(_) => Err(WriteFailedMessage)
      case Written(rows) => Ok(rows);
    match plan
    case Keep(_) => Run([writeCall], result)
    case UploadAs(name, _) =>
      var up := UploadCall(Bucket, name, newCabin.image);
      if upload.UploadFailed? then Run([up], Err(UploadFailedMessage))
      else Run([up, writeCall], result)
  }

  /** The row a completed run wrote. */
  function WrittenRow(run: Run): CabinData
    requires |run.calls| >= 1 && run.calls[|run.calls| - 1].IsWrite()
  {
    run.calls[|run.calls| - 1].row
  }

  /** A freshly uploaded image is written as its public address under the
      project URL, naming the object that was uploaded. */
  lemma UploadedImageIsWrittenAsItsAddress(
    newCabin: CabinData, id: Option<int>, supabaseUrl: string, random: string, write: WriteReply)
    requires NeedsUpload(newCabin.image, supabaseUrl)
    ensures var run := CreateEditCabin(newCabin, id, supabaseUrl, random, UploadOk, write);
            && |run.calls| == 2
            && WrittenRow(run).image.Address?
            && StartsWith(WrittenRow(run).image.s, supabaseUrl)
            && ObjectNameAt(supabaseUrl, WrittenRow(run).image.s) == Some(run.calls[0].objectName)
  {
  }

  /** Submitting the row a run wrote once more uploads nothing and writes the
      same row again. */
  lemma ResubmissionUploadsNothing(
    newCabin: CabinData, id: Option<int>, supabaseUrl: string, random: string, upload: UploadReply,
    write: WriteReply, id': Option<int>, random': string, upload': UploadReply, write': WriteReply)
    requires upload.UploadOk? || !NeedsUpload(newCabin.image, supabaseUrl)
    ensures var run := CreateEditCabin(newCabin, id, supabaseUrl, random, upload, write);
            var again := CreateEditCabin(WrittenRow(run), id', supabaseUrl, random', upload', write');
            |again.calls| == 1 && WrittenRow(again) == WrittenRow(run)
  {
  }
}
