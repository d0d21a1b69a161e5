/**
 * The server's pure helpers (utils.py): the JSON response envelope and the
 * collision-free name under which an upload is stored. The clock reading and
 * the random UUID are parameters.
 */
module Utils {

  import opened Optional
  import opened Json
  import Text

  /** The status `format_json_response` uses when none is given. */
  const DefaultStatus: string := "success"

  /**
   * The shape of every response body: `status` and `data` always, in that
   * order, and `message` last exactly when the message is truthy.
   */
  function Envelope(data: Value, status: string, message: Option<string>): (r: Value)
    ensures r.Obj?
    ensures KeysOf(r) == ["status", "data"] + (if Truthy(message) then ["message"] else [])
    ensures Field(r, "status") == Some(Str(status))
    ensures Field(r, "data") == Some(data)
    ensures Field(r, "message") == if Truthy(message) then Some(Str(message.value)) else None
  {
    Obj([("status", Str(status)), ("data", data)]
        + (if Truthy(message) then [("message", Str(message.value))] else []))
  }

  /** `format_json_response(data, status, message)`: build the dict, then insert `message` if truthy. */
  method FormatJsonResponse(data: Value, status: string, message: Option<string>) returns (response: Value)
    ensures response == Envelope(data, status, message)
  {
    var fields := [("status", Str(status)), ("data", data)];
    assert Keys(fields) == ["status", "data"];
    if Truthy(message) {
      PutKeys(fields, "message", Str(message.value));
      fields := Put(fields, "message", Str(message.value));
    }
    response := Obj(fields);
  }

  /** `os.path.splitext` for POSIX paths: (root, extension) with root + extension == p. */
  function SplitExt(p: string): (parts: (string, string))
    ensures parts.0 + parts.1 == p
    ensures parts.1 == [] || (parts.1[0] == '.' && '.' !in parts.1[1..] && '/' !in parts.1)
  {
    var sep := Text.RFind(p, '/');
    var dot := Text.RFind(p, '.');
    if dot > sep && exists i | sep + 1 <= i < dot :: p[i] != '.' then
      assert p[dot..][1..] == p[dot + 1..];
      (p[..dot], p[dot..])
    else
      (p, [])
  }

  /** `str(uuid)[:8]`: the first eight characters of the UUID's text. */
  function ShortId(uuid: string): (id8: string)
    ensures |uuid| >= 8 ==> |id8| == 8
    ensures id8 <= uuid
  {
    if |uuid| <= 8 then uuid else uuid[..8]
  }

  /** `generate_unique_filename`: `<timestamp>_<first 8 of uuid><extension of the original>`. */
  function GenerateUniqueFilename(original: string, timestamp: string, uuid: string): (name: string)
    ensures |name| == |timestamp| + 1 + |ShortId(uuid)| + |SplitExt(original).1|
    ensures name[..|timestamp|] == timestamp && name[|timestamp|] == '_'
    ensures |uuid| >= 8 ==> name[|timestamp| + 1..|timestamp| + 9] == uuid[..8]
    ensures name[|name| - |SplitExt(original).1|..] == SplitExt(original).1
  {
    timestamp + "_" + ShortId(uuid) + SplitExt(original).1
  }

  /**
   * The stored name keeps the uploaded file's extension, provided neither the
   * timestamp nor the UUID contributes a dot or a slash (true of `%Y%m%d_%H%M%S`
   * and of a UUID's hex-and-dash text).
   */
  lemma UniqueFilenameKeepsExtension(original: string, timestamp: string, uuid: string)
    requires '.' !in timestamp && '/' !in timestamp
    requires '.' !in uuid && '/' !in uuid
    ensures SplitExt(GenerateUniqueFilename(original, timestamp, uuid)).1 == SplitExt(original).1
  {
    var stem := timestamp + "_" + ShortId(uuid);
    StemIsPlain(timestamp, uuid);
    assert GenerateUniqueFilename(original, timestamp, uuid) == stem + SplitExt(original).1;
    SplitExtAppended(stem, SplitExt(original).1);
  }

  /** The part of a generated name before the extension has no dot and no slash. */
  lemma StemIsPlain(timestamp: string, uuid: string)
    requires '.' !in timestamp && '/' !in timestamp
    requires '.' !in uuid && '/' !in uuid
    ensures var stem := timestamp + "_" + ShortId(uuid);
            stem != [] && '.' !in stem && '/' !in stem
  {
    var stem := timestamp + "_" + ShortId(uuid);
    forall i | 0 <= i < |stem| ensures stem[i] != '.' && stem[i] != '/' {
      if i < |timestamp| {
        assert stem[i] == timestamp[i];
      } else if i > |timestamp| {
        assert stem[i] == ShortId(uuid)[i - |timestamp| - 1];
        assert ShortId(uuid)[i - |timestamp| - 1] == uuid[i - |timestamp| - 1];
      }
    }
  }

  /** Appending an extension to a plain, non-empty stem: splitting gives that extension back. */
  lemma SplitExtAppended(stem: string, ext: string)
    requires stem != [] && '.' !in stem && '/' !in stem
    requires ext == [] || (ext[0] == '.' && '.' !in ext[1..] && '/' !in ext)
    ensures SplitExt(stem + ext).1 == ext
  {
    var name := stem + ext;
    assert '/' !in name by {
      forall i | 0 <= i < |name| ensures name[i] != '/' {
        if i >= |stem| { assert name[i] == ext[i - |stem|]; }
      }
    }
    if ext == [] {
      assert name == stem;
    } else {
      var dot := |stem|;
      assert name[dot] == '.';
      assert name[dot + 1..] == ext[1..];
      Text.RFindAt(name, '.', dot);
      assert name[0] == stem[0];
      assert name[dot..] == ext;
    }
  }
}
