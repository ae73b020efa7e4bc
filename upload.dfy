/** Stage2_Code/upload_neurovault.py: one NeuroVault collection per sample,
    then one image per line of a list of map paths, each named for its
    estimate type and file name and tagged with the sample size read from
    the file name's `subs-` field. */
module Upload {
  import opened Text
  import opened Errors
  import Group
  import Fixed
  import Glob

  /** The calls the script makes on the NeuroVault client. */
  datatype Call =
    | Connect(token: string)                           // Client(token)
    | CreateCollection(name: string)                   // api.create_collection(name)
    | AddImage(collection: string, path: string, name: string, sampleSize: set<Option<string>>)
                                                       // api.add_image(id, path, name=..., sample_size={subs})

  /** The calls made on the client, in order, and the exception that stopped
      the script, if any. */
  datatype Trace = Trace(calls: seq<Call>, failure: Option<Error>)

  /** `f'{sample}: 3D MNI152 maps for multiverse reliability'`. */
  function CollectionName(sample: string): string
  {
    sample + ": 3D MNI152 maps for multiverse reliability"
  }

  /** A field that starts with `subs-` splits at '-' into `subs` and at least
      one more part. */
  lemma SubsSplit(p: string)
    requires StartsWith(p, "subs-")
    ensures |Split(p, '-')| >= 2 && Split(p, '-')[0] == "subs"
  {
    assert p == "subs" + ['-'] + p[5..];
    SplitAfter("subs", '-', p[5..]);
  }

  /** `part.split('-')[1]` of a `subs-` field. */
  function SubsValue(p: string): string
    requires StartsWith(p, "subs-")
  {
    SubsSplit(p);
    Split(p, '-')[1]
  }

  /** The value of `subs` after the loop over the fields: the value of the
      last field that starts with `subs-`, or `None` when there is none. */
  function LastSubs(parts: seq<string>): Option<string>
  {
    if |parts| == 0 then None
    else
      var p := parts[|parts| - 1];
      if StartsWith(p, "subs-") then Some(SubsValue(p)) else LastSubs(parts[..|parts| - 1])
  }

  /** `f'{est_type}: {img_basename}'`. */
  function ImageName(estType: string, base: string): string
  {
    estType + ": " + base
  }

  /** What one line of the list becomes. The path handed to the client is
      the line as read when `asWritten` holds, the cleaned path otherwise. */
  function ImageOf(collection: string, estType: string, line: string, asWritten: bool): Call
  {
    var clean := RemoveChar(Strip(line), '\n');
    var base := Basename(clean);
    AddImage(collection, if asWritten then line else clean, ImageName(estType, base), {LastSubs(Split(base, '_'))})
  }

  /** One image per line, in the order of the lines. */
  function Images(collection: string, estType: string, lines: seq<string>, asWritten: bool): (r: seq<Call>)
    ensures |r| == |lines|
  {
    if |lines| == 0 then []
    else Images(collection, estType, lines[..|lines| - 1], asWritten)
         + [ImageOf(collection, estType, lines[|lines| - 1], asWritten)]
  }

  /** The i-th image is that of the i-th line. */
  lemma {:induction false} ImagesAt(collection: string, estType: string, lines: seq<string>, asWritten: bool, i: nat)
    requires i < |lines|
    ensures Images(collection, estType, lines, asWritten)[i] == ImageOf(collection, estType, lines[i], asWritten)
  {
    var init := lines[..|lines| - 1];
    var front := Images(collection, estType, init, asWritten);
    var last := ImageOf(collection, estType, lines[|lines| - 1], asWritten);
    assert Images(collection, estType, lines, asWritten) == front + [last];
    if i < |init| {
      ImagesAt(collection, estType, init, asWritten, i);
      assert init[i] == lines[i];
      assert (front + [last])[i] == front[i];
    } else {
      assert |front| == i;
      assert (front + [last])[i] == last;
    }
  }

  /** Everything the script does. `token` and `list` are the contents of the
      token file and the path list (`None` when the file is absent), and
      `collection` the id NeuroVault gives the new collection. The client is
      created and the collection made before the list is opened. */
  function UploadScript(token: Option<string>, sample: string, list: Option<string>, listPath: string,
                        tokenPath: string, estType: string, collection: string, asWritten: bool): Trace
  {
    if token.None? then Trace([], Some(FileNotFound(tokenPath)))
    else
      var head := [Connect(Strip(token.value)), CreateCollection(CollectionName(sample))];
      if list.None? then Trace(head, Some(FileNotFound(listPath)))
      else Trace(head + Images(collection, estType, ReadLines(list.value), asWritten), None)
  }

  // ------------------------------------------------------------ the script

  /** The loop over the fields of one file name. */
  method ParseSubs(parts: seq<string>) returns (subs: Option<string>)
    ensures subs == LastSubs(parts)
  {
    subs := None;
    var i := 0;
    while i < |parts|
      invariant i <= |parts| && subs == LastSubs(parts[..i])
    {
      assert parts[..i + 1][..i] == parts[..i];
      if StartsWith(parts[i], "subs-") {
        SubsSplit(parts[i]);
        subs := Some(Split(parts[i], '-')[1]);
      }
      i := i + 1;
    }
    assert parts[..i] == parts;
  }

  method UploadLine(collection: string, estType: string, line: string, asWritten: bool) returns (c: Call)
    ensures c == ImageOf(collection, estType, line, asWritten)
  {
    var cleanPath := RemoveChar(Strip(line), '\n');
    var imgBasename := Basename(cleanPath);
    var fileDetails := Split(imgBasename, '_');
    var subs := ParseSubs(fileDetails);
    var imageName := ImageName(estType, imgBasename);
    c := AddImage(collection, if asWritten then line else cleanPath, imageName, {subs});
  }

  /** The loop over the lines of the list. */
  method UploadLines(collection: string, estType: string, lines: seq<string>, asWritten: bool)
    returns (images: seq<Call>)
    ensures images == Images(collection, estType, lines, asWritten)
  {
    images := [];
    var i := 0;
    while i < |lines|
      invariant i <= |lines| && images == Images(collection, estType, lines[..i], asWritten)
    {
      assert lines[..i + 1][..i] == lines[..i];
      var image := UploadLine(collection, estType, lines[i], asWritten);
      images := images + [image];
      i := i + 1;
    }
    assert lines[..i] == lines;
  }

  method RunScript(token: Option<string>, sample: string, list: Option<string>, listPath: string,
                   tokenPath: string, estType: string, collection: string, asWritten: bool)
    returns (out: Trace)
    ensures out == UploadScript(token, sample, list, listPath, tokenPath, estType, collection, asWritten)
  {
    if token.None? {
      return Trace([], Some(FileNotFound(tokenPath)));
    }
    var api := Connect(Strip(token.value));
    var collectionName := CreateCollection(CollectionName(sample));
    if list.None? {
      return Trace([api, collectionName], Some(FileNotFound(listPath)));
    }
    var images := UploadLines(collection, estType, ReadLines(list.value), asWritten);
    out := Trace([api, collectionName] + images, None);
  }

  // ------------------------------------------------------------ properties

  /** `subs` stays `None` exactly when no field starts with `subs-`. */
  lemma {:induction false} NoSubs(parts: seq<string>)
    ensures LastSubs(parts).None? <==> forall i :: 0 <= i < |parts| ==> !StartsWith(parts[i], "subs-")
  {
    if |parts| > 0 {
      var init := parts[..|parts| - 1];
      NoSubs(init);
      forall i | 0 <= i < |init| ensures init[i] == parts[i] { }
    }
  }

  /** When field `i` is the last that starts with `subs-`, `subs` is its value. */
  lemma {:induction false} LastSubsAt(parts: seq<string>, i: nat)
    requires i < |parts| && StartsWith(parts[i], "subs-")
    requires forall j :: i < j < |parts| ==> !StartsWith(parts[j], "subs-")
    ensures LastSubs(parts) == Some(SubsValue(parts[i]))
  {
    if i < |parts| - 1 {
      var init := parts[..|parts| - 1];
      assert init[i] == parts[i];
      forall j | i < j < |init| ensures !StartsWith(init[j], "subs-") {
        assert init[j] == parts[j];
      }
      LastSubsAt(init, i);
    }
  }

  /** The fields of a group map's file name, the permutation split into its
      own fields. */
  function GroupTokens(n: nat, c: string, fwhm: string, motion: string, model: string): seq<string>
  {
    ["subs-" + NatToString(n), Group.Session, "task-" + Group.Task, "contrast-" + c]
    + Fixed.PermFields("brain", fwhm, motion, model) + ["stat-zstat.nii.gz"]
  }

  /** The file name of a group map splits into its fields. */
  lemma GroupNameTokens(n: nat, c: string, fwhm: string, motion: string, model: string)
    requires '_' !in c && '_' !in fwhm && '_' !in motion && '_' !in model
    ensures Split(Join(Group.OutFields(n, Group.Session, Group.Task, c, Group.PermString(fwhm, motion, model)), '_'),
                  '_') == GroupTokens(n, c, fwhm, motion, model)
  {
    var head := ["subs-" + NatToString(n), Group.Session, "task-" + Group.Task, "contrast-" + c];
    var perm := Fixed.PermFields("brain", fwhm, motion, model);
    var tail := ["stat-zstat.nii.gz"];
    JoinFlatten(head, perm, tail, '_');
    assert Group.OutFields(n, Group.Session, Group.Task, c, Group.PermString(fwhm, motion, model))
           == head + [Join(perm, '_')] + tail;
    var ts := GroupTokens(n, c, fwhm, motion, model);
    assert AllDigits(NatToString(n));
    forall i | 0 <= i < |ts| ensures '_' !in ts[i] { }
    SplitJoin(ts, '_');
  }

  /** In the fields of a group map's name, only the first starts with `subs-`,
      and its value is the number printed there. */
  lemma GroupTokensSubs(n: nat, c: string, fwhm: string, motion: string, model: string)
    ensures LastSubs(GroupTokens(n, c, fwhm, motion, model)) == Some(NatToString(n))
  {
    var ts := GroupTokens(n, c, fwhm, motion, model);
    var digits := NatToString(n);
    assert ts[0] == "subs-" + digits;
    forall j | 0 < j < |ts| ensures !StartsWith(ts[j], "subs-") {
      assert ts[j][0] != 's' || ts[j][1] != 'u';
    }
    LastSubsAt(ts, 0);
    assert ts[0] == "subs" + ['-'] + digits;
    SplitAfter("subs", '-', digits);
    assert AllDigits(digits);
    SplitNoSep(digits, '-');
  }

  /** Uploading a line of the group script's output list: the image takes the
      map's file name, with the estimate type, and the sample size recorded is
      the number of maps the group model was fitted on, printed in decimal; it
      reads back as that number. The path handed over is the map's path, or,
      as written, that path with the line's newline still on it. */
  lemma UploadsGroupMap(outDir: string, n: nat, c: string, fwhm: string, motion: string, model: string,
                        collection: string, estType: string, asWritten: bool)
    requires |outDir| > 0 ==> !IsSpace(outDir[0])
    requires '\n' !in outDir
    requires '_' !in c && '_' !in fwhm && '_' !in motion && '_' !in model
    requires '/' !in c && '/' !in fwhm && '/' !in motion && '/' !in model
    requires '\n' !in c && '\n' !in fwhm && '\n' !in motion && '\n' !in model
    ensures var path := Group.OutPath(outDir, n, Group.Session, Group.Task, c, Group.PermString(fwhm, motion, model));
            var img := ImageOf(collection, estType, path + "\n", asWritten);
            img.name == estType + ": " + Join(Group.OutFields(n, Group.Session, Group.Task, c,
                                                              Group.PermString(fwhm, motion, model)), '_')
            && img.sampleSize == {Some(NatToString(n))}
            && DigitsValue(NatToString(n)) == n
            && img.path == (if asWritten then path + "\n" else path)
  {
    var perm := Group.PermString(fwhm, motion, model);
    var fields := Group.OutFields(n, Group.Session, Group.Task, c, perm);
    var name := Join(fields, '_');
    var path := Group.OutPath(outDir, n, Group.Session, Group.Task, c, perm);
    GroupNameTokens(n, c, fwhm, motion, model);
    GroupTokensSubs(n, c, fwhm, motion, model);
    NatToStringRoundTrip(n);
    NameFree(n, c, fwhm, motion, model, '/');
    NameFree(n, c, fwhm, motion, model, '\n');
    assert path == outDir + "/" + name;
    assert path[|path| - 1] == 'z' by {
      JoinAt(fields, '_', |fields| - 1);
    }
    StripLine(path);
    RemoveCharSpec(path, '\n');
    Glob.BasenameAfterSlash(outDir, name);
  }

  /** The file name of a group map holds no '/' and no newline. */
  lemma NameFree(n: nat, c: string, fwhm: string, motion: string, model: string, ch: char)
    requires ch == '/' || ch == '\n'
    requires ch !in c && ch !in fwhm && ch !in motion && ch !in model
    ensures ch !in Join(Group.OutFields(n, Group.Session, Group.Task, c, Group.PermString(fwhm, motion, model)), '_')
  {
    var perm := Fixed.PermFields("brain", fwhm, motion, model);
    assert NoSep(perm, ch);
    JoinNoSep(perm, '_', ch);
    var fields := Group.OutFields(n, Group.Session, Group.Task, c, Group.PermString(fwhm, motion, model));
    assert ch !in NatToString(n) by {
      assert AllDigits(NatToString(n));
    }
    assert NoSep(fields, ch);
    JoinNoSep(fields, '_', ch);
  }

  /** As written, a line read from the list keeps its newline in the path
      handed to the client, so the path names no file the group script wrote. */
  lemma AsWrittenPathKeepsNewline(collection: string, estType: string, path: string)
    ensures ImageOf(collection, estType, path + "\n", true).path != path
  {
    assert |path + "\n"| != |path|;
  }

  /** Corrected, the path handed over is the stripped line. */
  lemma CorrectedPathIsStripped(collection: string, estType: string, path: string)
    requires |path| > 0 && !IsSpace(path[0]) && !IsSpace(path[|path| - 1]) && '\n' !in path
    ensures ImageOf(collection, estType, path + "\n", false).path == path
  {
    StripLine(path);
    RemoveCharSpec(path, '\n');
  }

  /** The script's calls: connect with the stripped token, create the
      sample's collection, then one image per line of the list, the lines
      together making up the whole list. */
  lemma ScriptCalls(token: string, sample: string, list: string, listPath: string, tokenPath: string,
                    estType: string, collection: string, asWritten: bool)
    ensures var r := UploadScript(Some(token), sample, Some(list), listPath, tokenPath, estType, collection,
                                  asWritten);
            r.failure.None? && |r.calls| == 2 + |ReadLines(list)|
            && r.calls[0] == Connect(Strip(token)) && r.calls[1] == CreateCollection(CollectionName(sample))
            && Concat(ReadLines(list)) == list
  {
    ReadLinesSpec(list);
  }

  /** Without the list file the script has already connected and created the
      sample's collection when it stops: the collection stays behind, empty.
      Without the token file it stops before any call. */
  lemma MissingFiles(token: Option<string>, sample: string, listPath: string, tokenPath: string, estType: string,
                     collection: string, asWritten: bool)
    ensures var r := UploadScript(token, sample, None, listPath, tokenPath, estType, collection, asWritten);
            token.Some? ==> r.failure == Some(FileNotFound(listPath)) &&
                            r.calls == [Connect(Strip(token.value)), CreateCollection(CollectionName(sample))] &&
                            forall i :: 0 <= i < |r.calls| ==> !r.calls[i].AddImage?
    ensures forall list :: var r := UploadScript(None, sample, list, listPath, tokenPath, estType, collection, asWritten);
                           r.failure == Some(FileNotFound(tokenPath)) && r.calls == []
  {
  }

  /** The image of the i-th line is the (i + 2)-th call. */
  lemma ScriptCallAt(token: string, sample: string, list: string, listPath: string, tokenPath: string,
                     estType: string, collection: string, asWritten: bool, i: nat)
    requires i < |ReadLines(list)|
    ensures var r := UploadScript(Some(token), sample, Some(list), listPath, tokenPath, estType, collection,
                                  asWritten);
            r.failure.None? && 2 + i < |r.calls| &&
            r.calls[2 + i] == ImageOf(collection, estType, ReadLines(list)[i], asWritten)
  {
    var lines := ReadLines(list);
    var images := Images(collection, estType, lines, asWritten);
    var head := [Connect(Strip(token)), CreateCollection(CollectionName(sample))];
    assert images[i] == ImageOf(collection, estType, lines[i], asWritten) by {
      ImagesAt(collection, estType, lines, asWritten, i);
    }
    assert (head + images)[2 + i] == images[i];
  }
}
