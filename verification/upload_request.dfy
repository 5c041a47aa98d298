/**
  Building the insert request in `Youtube._initialize_upload`: the optional
  comma-separated keywords become the tag list, the metadata becomes the
  request body, and the `part` argument lists the body's top-level keys.
 */
module UploadRequest {
  import opened Results
  import opened RetryPolicy
  import opened UploadDriver

  /** The caller's `options` dict, restricted to string values; a key that
      is absent stands for one that is missing or `None`. */
  type Options = map<string, string>

  /** The number of occurrences of `c` in `s`. */
  function CountChar(s: string, c: char): nat {
    if |s| == 0 then 0 else (if s[0] == c then 1 else 0) + CountChar(s[1..], c)
  }

  /** Python's `s.split(sep)` for a one-character separator: empty pieces
      are kept, so the piece count is always the separator count plus one. */
  function Split(s: string, sep: char): (parts: seq<string>)
    ensures |parts| == CountChar(s, sep) + 1
    ensures forall i :: 0 <= i < |parts| ==> sep !in parts[i]
    decreases |s|
  {
    if |s| == 0 then [""]
    else
      var rest := Split(s[1..], sep);
      if s[0] == sep then [""] + rest
      else [[s[0]] + rest[0]] + rest[1..]
  }

  lemma {:induction false} CountCharAppend(a: string, b: string, c: char)
    ensures CountChar(a + b, c) == CountChar(a, c) + CountChar(b, c)
    decreases |a|
  {
    if |a| > 0 {
      assert (a + b)[1..] == a[1..] + b;
      CountCharAppend(a[1..], b, c);
    } else {
      assert a + b == b;
    }
  }

  lemma {:induction false} CountCharAbsent(a: string, c: char)
    requires c !in a
    ensures CountChar(a, c) == 0
    decreases |a|
  {
    if |a| > 0 {
      CountCharAbsent(a[1..], c);
    }
  }

  /** Python's `sep.join(parts)`. */
  function Join(parts: seq<string>, sep: char): string
    decreases |parts|
  {
    if |parts| == 0 then ""
    else if |parts| == 1 then parts[0]
    else parts[0] + [sep] + Join(parts[1..], sep)
  }

  /** Separator-free pieces are glued with one separator between neighbours:
      the join holds one separator fewer than there are pieces, and starts
      with the first piece. */
  lemma {:induction false} JoinCount(parts: seq<string>, sep: char)
    requires |parts| > 0
    requires forall i :: 0 <= i < |parts| ==> sep !in parts[i]
    ensures CountChar(Join(parts, sep), sep) == |parts| - 1
    ensures parts[0] <= Join(parts, sep)
    decreases |parts|
  {
    CountCharAbsent(parts[0], sep);
    if |parts| > 1 {
      var rest := Join(parts[1..], sep);
      JoinCount(parts[1..], sep);
      CountCharAppend(parts[0], [sep] + rest, sep);
      CountCharAppend([sep], rest, sep);
      assert CountChar([sep], sep) == 1 by {
        assert [sep][1..] == [];
      }
      assert parts[0] + [sep] + rest == parts[0] + ([sep] + rest);
    }
  }

  /** Joining the pieces of a split gives back the original string. */
  lemma {:induction false} JoinSplit(s: string, sep: char)
    ensures Join(Split(s, sep), sep) == s
    decreases |s|
  {
    if |s| > 0 {
      var rest := Split(s[1..], sep);
      JoinSplit(s[1..], sep);
      if s[0] == sep {
        assert Split(s, sep) == [""] + rest;
        assert ([""] + rest)[1..] == rest;
        assert Join([""] + rest, sep) == "" + [sep] + Join(rest, sep);
      } else {
        var parts := Split(s, sep);
        assert parts == [[s[0]] + rest[0]] + rest[1..];
        if |rest| == 1 {
          assert Join(parts, sep) == [s[0]] + rest[0];
        } else {
          assert parts[1..] == rest[1..];
          assert Join(parts, sep) == [s[0]] + rest[0] + [sep] + Join(rest[1..], sep);
          assert Join(rest, sep) == rest[0] + [sep] + Join(rest[1..], sep);
        }
        assert s == [s[0]] + s[1..];
      }
    }
  }

  /** A piece without the separator, followed by the separator, splits off as one piece. */
  lemma {:induction false} SplitAfterPiece(a: string, sep: char, b: string)
    requires sep !in a
    ensures Split(a + [sep] + b, sep) == [a] + Split(b, sep)
    decreases |a|
  {
    var s := a + [sep] + b;
    if |a| == 0 {
      assert s == [sep] + b;
      assert s[1..] == b;
    } else {
      assert s[0] == a[0];
      assert s[1..] == a[1..] + [sep] + b;
      SplitAfterPiece(a[1..], sep, b);
      assert [a[0]] + a[1..] == a;
    }
  }

  /** A string without the separator splits into itself. */
  lemma {:induction false} SplitWithoutSeparator(a: string, sep: char)
    requires sep !in a
    ensures Split(a, sep) == [a]
    decreases |a|
  {
    if |a| > 0 {
      SplitWithoutSeparator(a[1..], sep);
      assert [a[0]] + a[1..] == a;
    }
  }

  /** Splitting a join of separator-free pieces gives back the pieces. */
  lemma {:induction false} SplitJoin(parts: seq<string>, sep: char)
    requires |parts| >= 1
    requires forall i :: 0 <= i < |parts| ==> sep !in parts[i]
    ensures Split(Join(parts, sep), sep) == parts
    decreases |parts|
  {
    if |parts| == 1 {
      SplitWithoutSeparator(parts[0], sep);
    } else {
      SplitJoin(parts[1..], sep);
      SplitAfterPiece(parts[0], sep, Join(parts[1..], sep));
      assert [parts[0]] + parts[1..] == parts;
    }
  }

  /** `tags`: `None` unless `options['keywords']` is present and non-empty,
      and then the keywords split on commas. */
  function Tags(options: Options): (tags: Option<seq<string>>)
    ensures tags.None? <==> "keywords" !in options || options["keywords"] == ""
    ensures tags.Some? ==> |tags.value| == CountChar(options["keywords"], ',') + 1
    ensures tags.Some? ==> forall i :: 0 <= i < |tags.value| ==> ',' !in tags.value[i]
  {
    if "keywords" in options && options["keywords"] != "" then Some(Split(options["keywords"], ','))
    else None
  }

  /** Whenever there are tags, joining them with commas gives back the keywords. */
  lemma TagsRoundTrip(options: Options)
    ensures Tags(options).Some? ==> Join(Tags(options).value, ',') == options["keywords"]
  {
    if Tags(options).Some? {
      JoinSplit(options["keywords"], ',');
    }
  }

  datatype Snippet = Snippet(title: string, description: string, tags: Option<seq<string>>, categoryId: string)

  datatype VideoStatus = VideoStatus(privacyStatus: string)

  /** The request body: `dict(snippet=..., status=...)`. */
  datatype Body = Body(snippet: Snippet, status: VideoStatus)

  /** The `videos().insert(...)` call: its `part` string, its body, and the
      `MediaFileUpload` arguments (file path, chunk size, resumable flag). */
  datatype InsertRequest = InsertRequest(part: string, body: Body, mediaFile: string, chunkSize: int, resumable: bool)

  /** `body.keys()`: every body is built by the same `dict(snippet=..., status=...)`
      call, so its keys are always these two, in that insertion order. */
  const BodyKeys: seq<string> := ["snippet", "status"]

  /** `','.join(body.keys())`: it splits back into the body's keys. */
  function Part(): (part: string)
    ensures Split(part, ',') == BodyKeys
  {
    SplitJoin(BodyKeys, ',');
    Join(BodyKeys, ',')
  }

  /** The keys `_initialize_upload` reads with `options[...]`, in evaluation order. */
  const RequiredKeys: seq<string> := ["title", "description", "category", "status", "file"]

  /** The first of `keys` that `options` lacks, if any. */
  function FirstMissing(keys: seq<string>, options: Options): (missing: Option<string>)
    ensures missing.None? <==> forall k :: k in keys ==> k in options
    ensures missing.Some? ==> missing.value in keys && missing.value !in options
  {
    if |keys| == 0 then None
    else if keys[0] !in options then Some(keys[0])
    else FirstMissing(keys[1..], options)
  }

  /** The required keys are looked up in the order they are listed. */
  lemma FirstMissingRequired(options: Options)
    ensures FirstMissing(RequiredKeys, options) ==
      if "title" !in options then Some("title")
      else if "description" !in options then Some("description")
      else if "category" !in options then Some("category")
      else if "status" !in options then Some("status")
      else if "file" !in options then Some("file")
      else None
  {
    var k1: seq<string> := ["description", "category", "status", "file"];
    var k2: seq<string> := ["category", "status", "file"];
    var k3: seq<string> := ["status", "file"];
    var k4: seq<string> := ["file"];
    assert RequiredKeys[1..] == k1 && k1[1..] == k2 && k2[1..] == k3 && k3[1..] == k4 && k4[1..] == [];
    assert FirstMissing(k4, options) == if "file" !in options then Some("file") else None;
    assert FirstMissing(k3, options) == if "status" !in options then Some("status") else FirstMissing(k4, options);
    assert FirstMissing(k2, options) == if "category" !in options then Some("category") else FirstMissing(k3, options);
    assert FirstMissing(k1, options) == if "description" !in options then Some("description") else FirstMissing(k2, options);
  }

  /** Lines 82-102: the body, the `part` string and the media upload. */
  function BuildInsertRequest(options: Options): (r: Result<InsertRequest, Failure>)
    ensures r.Ok? <==> FirstMissing(RequiredKeys, options).None?
    ensures r.Err? ==> r.error == Other("KeyError", FirstMissing(RequiredKeys, options).value)
    ensures r.Ok? ==>
      && r.value.body.snippet == Snippet(options["title"], options["description"], Tags(options), options["category"])
      && r.value.body.status.privacyStatus == options["status"]
      && r.value.mediaFile == options["file"]
      && r.value.chunkSize == -1 && r.value.resumable
      && r.value.part == Part() && Split(r.value.part, ',') == BodyKeys
  {
    FirstMissingRequired(options);
    // `options[k]` raises KeyError for the first key read that is missing.
    if "title" !in options then Err(Other("KeyError", "title"))
    else if "description" !in options then Err(Other("KeyError", "description"))
    else if "category" !in options then Err(Other("KeyError", "category"))
    else if "status" !in options then Err(Other("KeyError", "status"))
    else if "file" !in options then Err(Other("KeyError", "file"))
    else
      var snippet := Snippet(options["title"], options["description"], Tags(options), options["category"]);
      var body := Body(snippet, VideoStatus(options["status"]));
      Ok(InsertRequest(Part(), body, options["file"], -1, true))
  }

  lemma JoinBodyKeys()
    ensures Join(BodyKeys, ',') == "snippet,status"
  {
    assert BodyKeys[1..] == ["status"];
    assert "snippet" + [','] + "status" == "snippet,status";
  }

  /** The `part` argument is always `"snippet,status"`. */
  lemma PartIsSnippetStatus(options: Options)
    requires forall k :: k in RequiredKeys ==> k in options
    ensures BuildInsertRequest(options).Ok?
    ensures BuildInsertRequest(options).value.part == "snippet,status"
  {
    var part := BuildInsertRequest(options).value.part;
    JoinSplit(part, ',');
    JoinBodyKeys();
  }

  /** `_initialize_upload`: build the request, then drive the upload. A
      missing option raises `KeyError` before any chunk is sent. */
  function InitializeUpload(options: Options, attempts: seq<Attempt>): (run: Run)
    ensures FirstMissing(RequiredKeys, options).Some? ==>
      run == Run(Raised(Other("KeyError", FirstMissing(RequiredKeys, options).value)), 0, [])
    ensures FirstMissing(RequiredKeys, options).None? ==> run == Upload(attempts)
  {
    match BuildInsertRequest(options)
    case Err(e) => Run(Raised(e), 0, [])
    case Ok(_) => Upload(attempts)
  }

  /** The privacy status is passed through unchecked: `"hidden"`, outside
      `VALID_PRIVACY_STATUSES`, is sent to the server like any other value. */
  lemma PrivacyStatusNotValidated(options: Options)
    requires forall k :: k in RequiredKeys ==> k in options
    requires options["status"] == "hidden"
    ensures BuildInsertRequest(options).Ok?
    ensures BuildInsertRequest(options).value.body.status.privacyStatus == "hidden"
  {
  }
}
