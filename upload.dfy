/**
 * The two pinning calls of the IPFS uploader: the JWT and file guards, the
 * multipart body of an image upload, the JSON body of a metadata upload,
 * and the `{hash, url}` result built from the service's answer.
 */
module Upload {
  import opened Wrappers
  import opened JsonValue
  import opened Strings
  import opened Bytes
  import Config

  const PinFileEndpoint := "https://api.pinata.cloud/pinning/pinFileToIPFS"
  const PinJsonEndpoint := "https://api.pinata.cloud/pinning/pinJSONToIPFS"
  const JwtMissingMessage := "PINATA_JWT not configured in .env file"
  const ImageNotFoundPrefix := "Image file not found: "
  const ImageRejectedPrefix := "Failed to upload to Pinata: "
  const MetadataRejectedPrefix := "Failed to upload metadata to Pinata: "
  const ProjectTag := "solayer-nft"
  const JsonContentType := "application/json"

  /** One field of a multipart body. */
  datatype FormPart =
    | FilePart(field: string, content: seq<Byte>, fileName: string)
    | TextPart(field: string, value: Json)   // sent as the JSON text of `value`

  datatype Body = Multipart(parts: seq<FormPart>) | JsonBody(value: Json)

  /** A POST: its URL, its `Authorization` and `Content-Type` headers (`None` lets `fetch` choose), its body. */
  datatype Request = Request(url: string, authorization: string, contentType: Option<string>, body: Body)

  /** What the POST to the pinning service gives back. */
  datatype PinAnswer =
    | PinThrew(msg: string)     // `fetch` or `response.json()` rejected
    | PinNotOk(text: string)    // `response.ok` is false; `text` is the body
    | PinOk(data: Json)         // the parsed body of an ok response

  /** `{hash: data.IpfsHash, url}`; `hash` is `None` when the answer had no IpfsHash. */
  datatype PinResult = PinResult(hash: Option<Json>, url: string)

  /** The result of one call together with the request it sent, if any. */
  datatype Attempt = Attempt(result: Result<PinResult>, sent: Option<Request>)

  /** `imagePath.split('/').pop()`. */
  function Basename(path: string): string
  {
    AfterLast(path, '/')
  }

  /** `${gateway}/ipfs/${hash}`. */
  function GatewayUrl(gateway: string, hash: Option<Json>): string
  {
    gateway + "/ipfs/" + Text(hash)
  }

  /** The result built from a parsed ok answer; reading `IpfsHash` of null throws. */
  function ResultOf(gateway: string, data: Json): Result<PinResult>
  {
    if data == JNull then Err("Cannot read properties of null (reading 'IpfsHash')")
    else
      var hash := Member(data, "IpfsHash");
      Ok(PinResult(hash, GatewayUrl(gateway, hash)))
  }

  /** How the answer to a sent request becomes the call's result. */
  function Settle(gateway: string, answer: PinAnswer, rejectedPrefix: string): Result<PinResult>
  {
    match answer
    case PinThrew(msg) => Err(msg)
    case PinNotOk(text) => Err(rejectedPrefix + text)
    case PinOk(data) => ResultOf(gateway, data)
  }

  function Keyvalues(kind: string): Json
  {
    JObj(map["project" := JStr(ProjectTag), "type" := JStr(kind)])
  }

  /** The multipart body of an image upload: the file, then its pin metadata. */
  function ImageForm(content: seq<Byte>, fileName: string): seq<FormPart>
  {
    [FilePart("file", content, fileName),
     TextPart("pinataMetadata", JObj(map["name" := JStr(fileName), "keyvalues" := Keyvalues("image")]))]
  }

  function Bearer(cfg: Config.Configuration): string
    requires cfg.JwtConfigured()
  {
    "Bearer " + cfg.pinataJwt.value
  }

  /**
   * `uploadImageToPinata(imagePath)`: `found` answers `fs.existsSync`,
   * `read` is what `fs.readFileSync` returns or the error it throws,
   * `answer` is the service's.
   */
  function ImageUpload(cfg: Config.Configuration, imagePath: string, found: bool,
                       read: Result<seq<Byte>>, answer: PinAnswer): Attempt
  {
    if !cfg.JwtConfigured() then Attempt(Err(JwtMissingMessage), None)
    else if !found then Attempt(Err(ImageNotFoundPrefix + imagePath), None)
    else if read.Err? then Attempt(Err(read.msg), None)
    else
      var request := Request(PinFileEndpoint, Bearer(cfg), None, Multipart(ImageForm(read.value, Basename(imagePath))));
      Attempt(Settle(cfg.gateway, answer, ImageRejectedPrefix), Some(request))
  }

  /** The JSON body of a metadata upload: the metadata itself and a pin name. */
  function MetadataBody(metadata: Entry): (body: Json)
  {
    JObj(map[
      "pinataContent" := JObj(metadata),
      "pinataMetadata" := JObj(map[
        "name" := JStr(Text(Get(metadata, "name")) + " Metadata"),
        "keyvalues" := Keyvalues("metadata")])])
  }

  /** `uploadMetadataToPinata(metadata)`. */
  function MetadataUpload(cfg: Config.Configuration, metadata: Entry, answer: PinAnswer): (r: Attempt)
    ensures !cfg.JwtConfigured() ==> r == Attempt(Err(JwtMissingMessage), None)
    ensures cfg.JwtConfigured() ==>
              && r.sent == Some(Request(PinJsonEndpoint, Bearer(cfg), Some(JsonContentType), JsonBody(MetadataBody(metadata))))
              && r.result == Settle(cfg.gateway, answer, MetadataRejectedPrefix)
    ensures r.result.Ok? ==> r.sent.Some? && answer.PinOk?
  {
    if !cfg.JwtConfigured() then Attempt(Err(JwtMissingMessage), None)
    else
      var request := Request(PinJsonEndpoint, Bearer(cfg), Some(JsonContentType), JsonBody(MetadataBody(metadata)));
      Attempt(Settle(cfg.gateway, answer, MetadataRejectedPrefix), Some(request))
  }

  /** A `FormData` that fields are appended to in place. */
  class FormData {
    var parts: seq<FormPart>

    constructor ()
      ensures parts == []
    {
      parts := [];
    }

    method Append(part: FormPart)
      modifies this
      ensures parts == old(parts) + [part]
    {
      parts := parts + [part];
    }
  }

  /** `uploadImageToPinata` step by step: guards, then the form built by appends, then the POST. */
  method UploadImageToPinata(cfg: Config.Configuration, imagePath: string, found: bool,
                             read: Result<seq<Byte>>, answer: PinAnswer) returns (a: Attempt)
    ensures a == ImageUpload(cfg, imagePath, found, read, answer)
  {
    if !cfg.JwtConfigured() {
      return Attempt(Err(JwtMissingMessage), None);
    }
    if !found {
      return Attempt(Err(ImageNotFoundPrefix + imagePath), None);
    }
    if read.Err? {
      return Attempt(Err(read.msg), None);
    }
    var content := read.value;
    var form := new FormData();
    var fileName := Basename(imagePath);
    form.Append(FilePart("file", content, fileName));
    form.Append(TextPart("pinataMetadata", JObj(map["name" := JStr(fileName), "keyvalues" := Keyvalues("image")])));
    assert form.parts == ImageForm(content, fileName);
    var request := Request(PinFileEndpoint, Bearer(cfg), None, Multipart(form.parts));
    var result: Result<PinResult>;
    match answer {
      case PinThrew(msg) => result := Err(msg);
      case PinNotOk(text) => result := Err(ImageRejectedPrefix + text);
      case PinOk(data) => result := ResultOf(cfg.gateway, data);
    }
    return Attempt(result, Some(request));
  }

  /** The basename is the text after the last '/': a suffix free of '/' that follows a '/' or is the whole path. */
  lemma BasenameIsLastSegment(path: string)
    ensures IsTailAfterLast(path, '/', Basename(path))
    ensures '/' !in path ==> Basename(path) == path
    ensures |path| > 0 && path[|path| - 1] == '/' ==> Basename(path) == ""
  {
    AfterLastIsTail(path, '/');
    if '/' !in path {
      assert IsTailAfterLast(path, '/', path);
      TailAfterLastUnique(path, '/', path, Basename(path));
    }
    if |path| > 0 && path[|path| - 1] == '/' {
      assert IsTailAfterLast(path, '/', "");
      TailAfterLastUnique(path, '/', "", Basename(path));
    }
  }

  /** A dir/file path yields the file part whenever that part has no '/'. */
  lemma BasenameOfJoin(dir: string, file: string)
    requires '/' !in file
    ensures Basename(dir + "/" + file) == file
  {
    var p := dir + "/" + file;
    AfterLastIsTail(p, '/');
    assert p[|dir| + 1..] == file;
    assert IsTailAfterLast(p, '/', file);
    TailAfterLastUnique(p, '/', file, Basename(p));
  }

  /**
   * An ok answer with a string IpfsHash yields that hash and a URL under
   * the configured gateway, and the hash is recovered as the URL's last
   * segment whenever it contains no '/'.
   */
  lemma UploadResultUrl(gateway: string, data: Json, hash: string, prefix: string)
    requires Member(data, "IpfsHash") == Some(JStr(hash))
    ensures Settle(gateway, PinOk(data), prefix) == Ok(PinResult(Some(JStr(hash)), gateway + "/ipfs/" + hash))
    ensures '/' !in hash ==> Basename(Settle(gateway, PinOk(data), prefix).value.url) == hash
  {
    if '/' !in hash {
      assert gateway + "/ipfs/" + hash == (gateway + "/ipfs") + "/" + hash;
      BasenameOfJoin(gateway + "/ipfs", hash);
    }
  }

  /** Without a JWT neither call reads the file nor sends anything. */
  lemma JwtGuardComesFirst(cfg: Config.Configuration, imagePath: string, found: bool,
                           read: Result<seq<Byte>>, metadata: Entry, answer: PinAnswer)
    requires !cfg.JwtConfigured()
    ensures ImageUpload(cfg, imagePath, found, read, answer) == Attempt(Err(JwtMissingMessage), None)
    ensures MetadataUpload(cfg, metadata, answer) == Attempt(Err(JwtMissingMessage), None)
  {
  }

  /** With a JWT but no file, the image call fails naming the path and sends nothing. */
  lemma FileGuardBeforeRequest(cfg: Config.Configuration, imagePath: string, read: Result<seq<Byte>>, answer: PinAnswer)
    requires cfg.JwtConfigured()
    ensures ImageUpload(cfg, imagePath, false, read, answer) == Attempt(Err(ImageNotFoundPrefix + imagePath), None)
  {
  }

  /** A file that exists but cannot be read fails the image call with the read error, and nothing is sent. */
  lemma ReadFailureSendsNothing(cfg: Config.Configuration, imagePath: string, msg: string, answer: PinAnswer)
    requires cfg.JwtConfigured()
    ensures ImageUpload(cfg, imagePath, true, Err(msg), answer) == Attempt(Err(msg), None)
  {
  }

  /** A call succeeds only when a request was sent and answered ok; a non-ok answer is an error carrying its text. */
  lemma SuccessNeedsOkAnswer(cfg: Config.Configuration, imagePath: string, found: bool,
                             read: Result<seq<Byte>>, metadata: Entry, answer: PinAnswer)
    ensures ImageUpload(cfg, imagePath, found, read, answer).result.Ok? ==>
              ImageUpload(cfg, imagePath, found, read, answer).sent.Some? && found && read.Ok? && answer.PinOk?
    ensures MetadataUpload(cfg, metadata, answer).result.Ok? ==>
              MetadataUpload(cfg, metadata, answer).sent.Some? && answer.PinOk?
    ensures answer.PinNotOk? && cfg.JwtConfigured() ==>
              MetadataUpload(cfg, metadata, answer).result == Err(MetadataRejectedPrefix + answer.text)
    ensures answer.PinNotOk? && cfg.JwtConfigured() && found && read.Ok? ==>
              ImageUpload(cfg, imagePath, found, read, answer).result == Err(ImageRejectedPrefix + answer.text)
  {
  }

  /** The image request carries the file bytes unchanged under the basename, which also names the pin. */
  lemma ImageRequestCarriesFile(cfg: Config.Configuration, imagePath: string, content: seq<Byte>, answer: PinAnswer)
    requires cfg.JwtConfigured()
    ensures var sent := ImageUpload(cfg, imagePath, true, Ok(content), answer).sent;
            sent.Some? && sent.value.url == PinFileEndpoint &&
            sent.value.authorization == "Bearer " + cfg.pinataJwt.value && sent.value.contentType.None? &&
            sent.value.body.Multipart? && |sent.value.body.parts| == 2 &&
            sent.value.body.parts[0] == FilePart("file", content, Basename(imagePath)) &&
            Member(sent.value.body.parts[1].value, "name") == Some(JStr(Basename(imagePath)))
  {
  }

  /** The metadata request is JSON with the bearer token, and pins the metadata unchanged, named after its `name` field. */
  lemma MetadataRequestCarriesMetadata(cfg: Config.Configuration, metadata: Entry, name: string, answer: PinAnswer)
    requires cfg.JwtConfigured()
    requires Get(metadata, "name") == Some(JStr(name))
    ensures var sent := MetadataUpload(cfg, metadata, answer).sent;
            sent.Some? && sent.value.url == PinJsonEndpoint && sent.value.contentType == Some("application/json") &&
            sent.value.authorization == "Bearer " + cfg.pinataJwt.value && sent.value.body.JsonBody? &&
            Member(sent.value.body.value, "pinataContent") == Some(JObj(metadata)) &&
            Member(Member(sent.value.body.value, "pinataMetadata").value, "name") == Some(JStr(name + " Metadata"))
  {
  }
}
