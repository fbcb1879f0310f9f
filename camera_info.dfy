/**
 * Camera information read from the text metadata of PNG files written by
 * DeltaGen: the tag filter, the orientation rewrite, the check for film
 * offsets and the translation into DeltaGen socket commands
 * (modules/utils/camera_info.py).
 */
module CameraInfo {
  import opened Wrappers
  import opened Text
  import opened OrderedDict

  /** `camera_info`: tag name to raw value, in insertion order. */
  type Info = seq<(string, string)>

  /** Key prefixes of the metadata entries that are kept (the set `rtt_camera_tags`). */
  const TagPrefixes: seq<string> := [
    "rtt_width", "rtt_height", "rtt_Camera", "Software",
    "rtt_BackgroundColor_RGBA", "rtt_antiAliasQuality", "rtt_FileName", "knecht"
  ]

  predicate MatchesAny(k: string, prefixes: seq<string>)
  {
    exists j :: 0 <= j < |prefixes| && StartsWith(k, prefixes[j])
  }

  predicate IsCameraTag(k: string)
  {
    MatchesAny(k, TagPrefixes)
  }

  /** `rtt_camera_defaults`: tags whose value must be the no-offset default. */
  const Defaults: seq<(string, string)> := [
    ("rtt_Camera_HorizontalFilmOffset", "0"), ("rtt_Camera_VerticalFilmOffset", "0"),
    ("rtt_Camera_PreScale", "1"), ("rtt_Camera_Overscan", "1")
  ]

  const OrientationTag := "rtt_Camera_Orientation"

  const InitialWarning := "Camera Data is valid and contains no camera offsets."

  // ---------------------------------------------------------------------------
  // Command templates and Python's str.format
  // ---------------------------------------------------------------------------

  /** A `str.format` template: literal text and positional fields `{i}`. */
  datatype Piece = Lit(text: string) | Field(index: nat)
  type Template = seq<Piece>

  /** `rtt_camera_cmds`: camera tag to socket command template. */
  const Commands: seq<(string, Template)> := [
    ("rtt_Camera_FOV", [Lit("FOV CAMERA "), Field(0)]),
    ("rtt_Camera_Position", [Lit("POS CAMERA "), Field(0), Lit(" "), Field(1), Lit(" "), Field(2)]),
    ("rtt_Camera_Orientation",
     [Lit("ORIENT CAMERA "), Field(0), Lit(" "), Field(1), Lit(" "), Field(2), Lit(" "), Field(3)]),
    ("knecht_clip_near", [Lit("CLIPPLANE_NEAR CAMERA "), Field(0)]),
    ("knecht_clip_far", [Lit("CLIPPLANE_FAR CAMERA "), Field(0)])
  ]

  function CommandTags(): set<string>
  {
    Keys(Commands)
  }

  /** The template as written in the source, fields shown as `{i}`. */
  function TemplateText(t: Template): string
  {
    if t == [] then "" else PieceText(t[0]) + TemplateText(t[1..])
  }

  /** Every field of `t` has an argument. */
  predicate FieldsBound(t: Template, argc: nat)
  {
    forall i :: 0 <= i < |t| && t[i].Field? ==> t[i].index < argc
  }

  /**
   * `t.format(*args)`: None when a field index has no argument (Python raises
   * IndexError); surplus arguments are ignored.
   */
  function Format(t: Template, args: seq<string>): (r: Option<string>)
    ensures r.Some? <==> FieldsBound(t, |args|)
  {
    if t == [] then Some("")
    else
      var rest := Format(t[1..], args);
      assert FieldsBound(t, |args|) <==>
             (t[0].Field? ==> t[0].index < |args|) && FieldsBound(t[1..], |args|) by {
        if FieldsBound(t[1..], |args|) && (t[0].Field? ==> t[0].index < |args|) {
          forall i | 0 <= i < |t| && t[i].Field? ensures t[i].index < |args| {
            if i > 0 { assert t[1..][i - 1] == t[i]; }
          }
        }
      }
      match t[0]
      case Lit(s) => if rest.Some? then Some(s + rest.value) else None
      case Field(i) => if i < |args| && rest.Some? then Some(args[i] + rest.value) else None
  }

  /** Extra arguments beyond the ones the fields use change nothing. */
  lemma {:induction false} FormatSurplusIgnored(t: Template, args: seq<string>, extra: seq<string>)
    requires FieldsBound(t, |args|)
    ensures Format(t, args + extra) == Format(t, args)
  {
    if t != [] {
      FormatSurplusIgnored(t[1..], args, extra);
      if t[0].Field? {
        assert t[0].index < |args|;
        assert (args + extra)[t[0].index] == args[t[0].index];
      }
    }
  }

  // ---------------------------------------------------------------------------
  // create_deltagen_camera_cmd
  // ---------------------------------------------------------------------------

  /** The value as the command sees it: spaces removed, split at commas. */
  function Arguments(value: string): seq<string>
  {
    Split(Remove(value, ' '), ',')
  }

  /**
   * The command one `camera_info` entry contributes: nothing for a tag without a
   * template; otherwise the formatted template, or the template unformatted when
   * the value has too few pieces (the error is only logged), followed by `;`.
   */
  function EntryCommand(tag: string, value: string): string
  {
    match Get(Commands, tag)
    case None => ""
    case Some(t) =>
      (match Format(t, Arguments(value))
       case Some(s) => s
       case None => TemplateText(t)) + ";"
  }

  /** The whole command string, entries in insertion order. */
  function CommandString(info: Info): string
  {
    if info == [] then ""
    else
      var last := info[|info| - 1];
      CommandString(info[..|info| - 1]) + EntryCommand(last.0, last.1)
  }

  /** An entry's command: nothing for a tag without a template, else the formatted template (or its raw text) and `;`. */
  lemma EntryCommandCases(tag: string, value: string)
    ensures Get(Commands, tag).None? ==> EntryCommand(tag, value) == ""
    ensures Get(Commands, tag).Some? ==>
              var f := Format(Get(Commands, tag).value, Split(Remove(value, ' '), ','));
              EntryCommand(tag, value) == (if f.Some? then f.value else TemplateText(Get(Commands, tag).value)) + ";"
  {
  }

  /** The body of the loop in `create_deltagen_camera_cmd` for one entry. */
  method EntryText(tag: string, value: string) returns (entry: string)
    ensures entry == EntryCommand(tag, value)
  {
    entry := "";
    var template := Get(Commands, tag);
    EntryCommandCases(tag, value);
    if template.Some? {
      var formatted := Format(template.value, Split(Remove(value, ' '), ','));
      var cameraCmd := if formatted.Some? then formatted.value else TemplateText(template.value);
      entry := cameraCmd + ";";
    }
  }

  /** One more entry appends its command. */
  lemma CommandStringStep(info: Info, i: nat)
    requires i < |info|
    ensures CommandString(info[..i + 1]) == CommandString(info[..i]) + EntryCommand(info[i].0, info[i].1)
  {
    assert info[..i + 1][..i] == info[..i];
  }

  /** The command string is empty or ends with `;`. */
  lemma {:induction false} CommandStringTerminated(info: Info)
    ensures var r := CommandString(info); r == [] || r[|r| - 1] == ';'
  {
    if info != [] {
      var last := info[|info| - 1];
      var init := info[..|info| - 1];
      CommandStringTerminated(init);
      EntryCommandTerminated(last.0, last.1);
      assert CommandString(info) == CommandString(init) + EntryCommand(last.0, last.1);
      TerminatedConcat(CommandString(init), EntryCommand(last.0, last.1));
    }
  }

  lemma TerminatedConcat(a: string, e: string)
    requires a == [] || a[|a| - 1] == ';'
    requires e == [] || e[|e| - 1] == ';'
    ensures var r := a + e; r == [] || r[|r| - 1] == ';'
  {
    if e != [] {
      assert (a + e)[|a + e| - 1] == e[|e| - 1];
    } else {
      assert a + e == a;
    }
  }

  /** One entry's command is empty or ends with `;`. */
  lemma EntryCommandTerminated(tag: string, value: string)
    ensures var e := EntryCommand(tag, value); e == [] || e[|e| - 1] == ';'
  {
    EntryCommandCases(tag, value);
  }

  /** Commands of consecutive parts of `camera_info` are concatenated in order. */
  lemma {:induction false} CommandStringAppend(a: Info, b: Info)
    ensures CommandString(a + b) == CommandString(a) + CommandString(b)
    decreases |b|
  {
    if b != [] {
      var init := b[..|b| - 1];
      assert (a + b)[..|a + b| - 1] == a + init;
      assert (a + b)[|a + b| - 1] == b[|b| - 1];
      CommandStringAppend(a, init);
    } else {
      assert a + b == a;
    }
  }

  /** A tag outside the command table contributes nothing. */
  lemma NoCommandOutsideTable(tag: string, value: string)
    requires tag !in CommandTags()
    ensures EntryCommand(tag, value) == ""
  {
  }

  /** Entries whose tag has no template contribute nothing. */
  lemma {:induction false} NonCommandTagsIgnored(info: Info)
    requires forall i :: 0 <= i < |info| ==> info[i].0 !in CommandTags()
    ensures CommandString(info) == ""
  {
    if info != [] {
      NonCommandTagsIgnored(info[..|info| - 1]);
    }
  }

  /** An entry with enough pieces gives its template filled with the space-free pieces. */
  lemma CommandEntryFormatted(tag: string, value: string, t: Template)
    requires Get(Commands, tag) == Some(t)
    requires FieldsBound(t, |Arguments(value)|)
    ensures EntryCommand(tag, value) == Format(t, Arguments(value)).value + ";"
    ensures ' ' !in Arguments(value)[0]
  {
    var a := Arguments(value);
    var v := Remove(value, ' ');
    JoinSplit(v, ',');
    assert ' ' !in v;
    assert ' ' !in a[0] by {
      if |a| == 1 { assert a[0] == v; }
      else { assert Join(a, ',') == a[0] + [','] + Join(a[1..], ','); }
    }
  }

  lemma FieldsBoundMonotone(t: Template, argc: nat, argc': nat)
    requires FieldsBound(t, argc) && argc <= argc'
    ensures FieldsBound(t, argc')
  {
  }

  /** `", ".join(pieces)`: how `_convert_orientation` writes the orientation back. */
  function ListText(pieces: seq<string>): string
  {
    if |pieces| == 0 then ""
    else if |pieces| == 1 then pieces[0]
    else pieces[0] + ", " + ListText(pieces[1..])
  }

  lemma {:induction false} RemoveAppend(a: string, b: string, c: char)
    ensures Remove(a + b, c) == Remove(a, c) + Remove(b, c)
  {
    if a != [] {
      assert (a + b)[1..] == a[1..] + b;
      RemoveAppend(a[1..], b, c);
    } else {
      assert a + b == b;
    }
  }

  /**
   * A value written as `", ".join(pieces)` of space- and comma-free pieces is
   * read back by the command builder as exactly those pieces.
   */
  lemma {:induction false} ArgumentsOfListText(pieces: seq<string>)
    requires |pieces| >= 1
    requires forall i :: 0 <= i < |pieces| ==> ' ' !in pieces[i] && ',' !in pieces[i]
    ensures Arguments(ListText(pieces)) == pieces
  {
    RemovedListText(pieces);
    SplitJoin(pieces, ',');
  }

  lemma {:induction false} RemovedListText(pieces: seq<string>)
    requires forall i :: 0 <= i < |pieces| ==> ' ' !in pieces[i]
    ensures Remove(ListText(pieces), ' ') == Join(pieces, ',')
  {
    if |pieces| > 1 {
      RemovedListText(pieces[1..]);
      RemovedListTextCons(pieces[0], ListText(pieces[1..]), Join(pieces[1..], ','));
    }
  }

  lemma RemovedListTextCons(p: string, tail: string, joined: string)
    requires ' ' !in p && Remove(tail, ' ') == joined
    ensures Remove(p + ", " + tail, ' ') == p + [','] + joined
  {
    assert p + ", " + tail == (p + ",") + (" " + tail);
    assert Remove(",", ' ') == [','] by { assert ","[1..] == []; }
    assert Remove(" ", ' ') == [] by { assert " "[1..] == []; }
    RemoveAppend(p, ",", ' ');
    assert Remove(p + ",", ' ') == p + [','];
    RemoveAppend(" ", tail, ' ');
    assert Remove(" " + tail, ' ') == joined;
    RemoveAppend(p + ",", " " + tail, ' ');
  }

  /** The text of one template piece. */
  function PieceText(p: Piece): string
  {
    match p
    case Lit(s) => s
    case Field(i) => "{" + NatToString(i) + "}"
  }

  /** Formatting a template in two parts is formatting each part. */
  lemma {:induction false} FormatAppend(a: Template, b: Template, args: seq<string>)
    requires FieldsBound(a, |args|) && FieldsBound(b, |args|)
    ensures Format(a + b, args) == Some(Format(a, args).value + Format(b, args).value)
  {
    if a == [] {
      assert a + b == b;
      assert "" + Format(b, args).value == Format(b, args).value;
    } else {
      assert (a + b)[1..] == a[1..] + b;
      assert FieldsBound(a[1..], |args|) by {
        forall i | 0 <= i < |a[1..]| && a[1..][i].Field? ensures a[1..][i].index < |args| {
          assert a[1..][i] == a[i + 1];
        }
      }
      FormatAppend(a[1..], b, args);
      assert (a + b)[0] == a[0];
      assert a[0].Field? ==> a[0].index < |args|;
      var head := if a[0].Lit? then a[0].text else args[a[0].index];
      assert Format(a, args).value == head + Format(a[1..], args).value;
      assert Format(a + b, args).value == head + Format(a[1..] + b, args).value;
      assert head + (Format(a[1..], args).value + Format(b, args).value) ==
             (head + Format(a[1..], args).value) + Format(b, args).value;
    }
  }

  /** A literal formats as itself, a field as its argument. */
  lemma FormatPiece(p: Piece, args: seq<string>)
    requires p.Field? ==> p.index < |args|
    ensures Format([p], args) == Some(if p.Lit? then p.text else args[p.index])
  {
    assert [p][1..] == [];
    var s := if p.Lit? then p.text else args[p.index];
    assert s + "" == s;
  }

  /**
   * FOV and the two clip planes take the first space-free comma piece of the
   * value; further pieces are ignored.
   */
  lemma SingleFieldCommands(value: string)
    ensures EntryCommand("rtt_Camera_FOV", value) == "FOV CAMERA " + Arguments(value)[0] + ";"
    ensures EntryCommand("knecht_clip_near", value) == "CLIPPLANE_NEAR CAMERA " + Arguments(value)[0] + ";"
    ensures EntryCommand("knecht_clip_far", value) == "CLIPPLANE_FAR CAMERA " + Arguments(value)[0] + ";"
  {
    FovCommand(value);
    ClipNearCommand(value);
    ClipFarCommand(value);
  }

  lemma FovCommand(value: string)
    ensures EntryCommand("rtt_Camera_FOV", value) == "FOV CAMERA " + Arguments(value)[0] + ";"
  {
    assert Get(Commands, "rtt_Camera_FOV") == Some([Lit("FOV CAMERA "), Field(0)]);
    OneFieldCommand("rtt_Camera_FOV", "FOV CAMERA ", value);
  }

  lemma ClipNearCommand(value: string)
    ensures EntryCommand("knecht_clip_near", value) == "CLIPPLANE_NEAR CAMERA " + Arguments(value)[0] + ";"
  {
    assert Get(Commands, "knecht_clip_near") == Some([Lit("CLIPPLANE_NEAR CAMERA "), Field(0)]);
    OneFieldCommand("knecht_clip_near", "CLIPPLANE_NEAR CAMERA ", value);
  }

  lemma ClipFarCommand(value: string)
    ensures EntryCommand("knecht_clip_far", value) == "CLIPPLANE_FAR CAMERA " + Arguments(value)[0] + ";"
  {
    assert Get(Commands, "knecht_clip_far") == Some([Lit("CLIPPLANE_FAR CAMERA "), Field(0)]);
    OneFieldCommand("knecht_clip_far", "CLIPPLANE_FAR CAMERA ", value);
  }

  /** A one-field template formats to its text followed by the first piece. */
  lemma OneFieldCommand(tag: string, text: string, value: string)
    requires Get(Commands, tag) == Some([Lit(text), Field(0)])
    ensures EntryCommand(tag, value) == text + Arguments(value)[0] + ";"
  {
    var args := Arguments(value);
    FormatPiece(Lit(text), args);
    FormatPiece(Field(0), args);
    assert [Lit(text), Field(0)] == [Lit(text)] + [Field(0)];
    FormatAppend([Lit(text)], [Field(0)], args);
  }


  /** A position `x, y, z` of space- and comma-free pieces becomes `POS CAMERA x y z;`. */
  lemma PositionCommand(x: string, y: string, z: string)
    requires ' ' !in x && ',' !in x && ' ' !in y && ',' !in y && ' ' !in z && ',' !in z
    ensures EntryCommand("rtt_Camera_Position", ListText([x, y, z])) ==
            "POS CAMERA " + x + " " + y + " " + z + ";"
  {
    var args := [x, y, z];
    ArgumentsOfListText(args);
    var t := Commands[1].1;
    assert Get(Commands, "rtt_Camera_Position") == Some(t);
    assert t == [Lit("POS CAMERA ")] + [Field(0)] + [Lit(" ")] + [Field(1)] + [Lit(" ")] + [Field(2)];
    FormatPiece(Lit("POS CAMERA "), args);
    FormatPiece(Lit(" "), args);
    FormatPiece(Field(0), args);
    FormatPiece(Field(1), args);
    FormatPiece(Field(2), args);
    FormatAppend([Lit("POS CAMERA ")], [Field(0)], args);
    FormatAppend([Lit("POS CAMERA ")] + [Field(0)], [Lit(" ")], args);
    FormatAppend([Lit("POS CAMERA ")] + [Field(0)] + [Lit(" ")], [Field(1)], args);
    FormatAppend([Lit("POS CAMERA ")] + [Field(0)] + [Lit(" ")] + [Field(1)], [Lit(" ")], args);
    FormatAppend([Lit("POS CAMERA ")] + [Field(0)] + [Lit(" ")] + [Field(1)] + [Lit(" ")], [Field(2)], args);
  }

  /** An orientation `x, y, z, a` of space- and comma-free pieces becomes `ORIENT CAMERA x y z a;`. */
  lemma OrientationCommand(x: string, y: string, z: string, a: string)
    requires ' ' !in x && ',' !in x && ' ' !in y && ',' !in y && ' ' !in z && ',' !in z
    requires ' ' !in a && ',' !in a
    ensures EntryCommand(OrientationTag, ListText([x, y, z, a])) ==
            "ORIENT CAMERA " + x + " " + y + " " + z + " " + a + ";"
  {
    var args := [x, y, z, a];
    ArgumentsOfListText(args);
    assert Get(Commands, OrientationTag) == Some(Commands[2].1);
    FourFieldFormat("ORIENT CAMERA ", " ", args);
  }

  /** A head and four fields apart by one separator format to the head and the four pieces. */
  lemma FourFieldFormat(head: string, sep: string, args: seq<string>)
    requires |args| == 4
    ensures Format([Lit(head), Field(0), Lit(sep), Field(1), Lit(sep), Field(2), Lit(sep), Field(3)], args) ==
            Some(head + args[0] + sep + args[1] + sep + args[2] + sep + args[3])
  {
    var t1 := [Lit(head)] + [Field(0)] + [Lit(sep)];
    var t2 := t1 + [Field(1)] + [Lit(sep)];
    var t3 := t2 + [Field(2)] + [Lit(sep)];
    assert [Lit(head), Field(0), Lit(sep), Field(1), Lit(sep), Field(2), Lit(sep), Field(3)] == t3 + [Field(3)];
    FormatPiece(Lit(head), args);
    FormatPiece(Lit(sep), args);
    FormatPiece(Field(0), args);
    FormatPiece(Field(1), args);
    FormatPiece(Field(2), args);
    FormatPiece(Field(3), args);
    FormatAppend([Lit(head)], [Field(0)], args);
    FormatAppend([Lit(head)] + [Field(0)], [Lit(sep)], args);
    FormatAppend(t1, [Field(1)], args);
    FormatAppend(t1 + [Field(1)], [Lit(sep)], args);
    FormatAppend(t2, [Field(2)], args);
    FormatAppend(t2 + [Field(2)], [Lit(sep)], args);
    FormatAppend(t3, [Field(3)], args);
  }

  /**
   * A position with fewer than three pieces cannot be formatted (the error is
   * only logged): the template goes out unformatted.
   */
  lemma ShortPositionKeepsTemplate(x: string, y: string)
    requires ' ' !in x && ',' !in x && ' ' !in y && ',' !in y
    ensures EntryCommand("rtt_Camera_Position", ListText([x, y])) == TemplateText(Commands[1].1) + ";"
  {
    ArgumentsOfListText([x, y]);
    assert Commands[1].1[5] == Field(2);
    assert !FieldsBound(Commands[1].1, 2);
  }

  /** One entry gives its own command. */
  lemma SingleEntry(e: (string, string))
    ensures CommandString([e]) == EntryCommand(e.0, e.1)
  {
    assert [e][..0] == [];
  }

  // ---------------------------------------------------------------------------
  // read_image: tag filtering
  // ---------------------------------------------------------------------------

  /** `camera_info` after the filter loop over the metadata items. */
  function Absorb(info: Info, meta: Info): Info
  {
    if meta == [] then info
    else
      var prev := Absorb(info, meta[..|meta| - 1]);
      var last := meta[|meta| - 1];
      if IsCameraTag(last.0) then Put(prev, last.0, last.1) else prev
  }

  /**
   * A key has a value after the filter iff it was kept from the metadata (with
   * the metadata's value) or was there before; nothing else is added.
   */
  lemma {:induction false} AbsorbGet(info: Info, meta: Info, k: string)
    requires DistinctKeys(meta)
    ensures Get(Absorb(info, meta), k) ==
            if IsCameraTag(k) && k in Keys(meta) then Get(meta, k) else Get(info, k)
  {
    if meta != [] {
      var init := meta[..|meta| - 1];
      var last := meta[|meta| - 1];
      assert DistinctKeys(init);
      AbsorbGet(info, init, k);
      var prev := Absorb(info, init);
      if IsCameraTag(last.0) && last.0 != k {
        PutOther(prev, last.0, last.1, k);
      }
      MetaKeysSnoc(meta, k);
    }
  }

  lemma MetaKeysSnoc(meta: Info, k: string)
    requires meta != [] && DistinctKeys(meta)
    ensures var init, last := meta[..|meta| - 1], meta[|meta| - 1];
      && (k in Keys(meta) <==> k in Keys(init) || k == last.0)
      && (k == last.0 ==> Get(meta, k) == Some(last.1) && k !in Keys(init))
      && (k != last.0 ==> Get(meta, k) == Get(init, k))
  {
    var init, last := meta[..|meta| - 1], meta[|meta| - 1];
    var n := |meta| - 1;
    assert meta[n] == last;
    if k == last.0 {
      assert k !in Keys(init) by {
        forall j | 0 <= j < |init| ensures init[j].0 != k { assert init[j] == meta[j]; }
      }
      assert IndexOf(meta, k) == n by {
        forall j | 0 <= j < n ensures meta[j].0 != k { assert init[j] == meta[j]; }
      }
    } else {
      var i := IndexOf(meta, k);
      if i >= 0 {
        assert i < n;
        assert init[i] == meta[i];
        assert k in Keys(init);
        assert IndexOf(init, k) == i;
      } else {
        assert k !in Keys(init) by {
          forall j | 0 <= j < |init| ensures init[j].0 != k { assert init[j] == meta[j]; }
        }
      }
    }
  }

  /** Starting from an empty `camera_info`, the kept entries are exactly the allowed ones, in metadata order. */
  lemma {:induction false} AbsorbFromEmpty(meta: Info)
    requires DistinctKeys(meta)
    ensures Absorb([], meta) == KeptEntries(meta)
  {
    if meta != [] {
      var init := meta[..|meta| - 1];
      var last := meta[|meta| - 1];
      assert DistinctKeys(init);
      AbsorbFromEmpty(init);
      if IsCameraTag(last.0) {
        MetaKeysSnoc(meta, last.0);
        KeptKeys(init);
        assert last.0 !in Keys(KeptEntries(init));
      }
    }
  }

  /** The metadata entries whose key starts with an allowed prefix, in order. */
  function KeptEntries(meta: Info): (r: Info)
    ensures |r| <= |meta|
  {
    if meta == [] then []
    else
      var last := meta[|meta| - 1];
      KeptEntries(meta[..|meta| - 1]) + (if IsCameraTag(last.0) then [last] else [])
  }

  lemma {:induction false} KeptKeys(meta: Info)
    ensures Keys(KeptEntries(meta)) == set k | k in Keys(meta) && IsCameraTag(k)
  {
    if meta != [] {
      var init := meta[..|meta| - 1];
      var last := meta[|meta| - 1];
      KeptKeys(init);
      assert meta == init + [last];
      KeysSnoc(init, last);
      if IsCameraTag(last.0) {
        assert KeptEntries(meta) == KeptEntries(init) + [last];
        KeysSnoc(KeptEntries(init), last);
      } else {
        assert KeptEntries(meta) == KeptEntries(init);
      }
    }
  }

  lemma KeysSnoc(d: Info, e: (string, string))
    ensures Keys(d + [e]) == Keys(d) + {e.0}
  {
    var r := d + [e];
    assert r[|d|] == e;
    forall x | x in Keys(r) ensures x in Keys(d) + {e.0} {
      var i :| 0 <= i < |r| && r[i].0 == x;
      if i < |d| { assert r[i] == d[i]; }
    }
    forall x | x in Keys(d) ensures x in Keys(r) {
      var i :| 0 <= i < |d| && d[i].0 == x;
      assert r[i] == d[i];
    }
  }

  /** The filter loop of `read_image`: every item whose key starts with an allowed prefix is assigned. */
  method FilterCameraTags(info: Info, items: Info) returns (r: Info)
    ensures r == Absorb(info, items)
  {
    r := info;
    var i := 0;
    while i < |items|
      invariant 0 <= i <= |items|
      invariant r == Absorb(info, items[..i])
    {
      var k, v := items[i].0, items[i].1;
      r := AssignOnPrefix(r, k, v, TagPrefixes);
      AbsorbStep(info, items, i);
      i := i + 1;
    }
    assert items[..i] == items;
  }

  /**
   * The inner loop over the prefixes: the item is assigned once for every
   * prefix its key starts with, which leaves the same dictionary as
   * assigning it once.
   */
  method AssignOnPrefix(d: Info, k: string, v: string, prefixes: seq<string>) returns (r: Info)
    ensures r == if MatchesAny(k, prefixes) then Put(d, k, v) else d
  {
    r := d;
    var t := 0;
    while t < |prefixes|
      invariant 0 <= t <= |prefixes|
      invariant r == if MatchesAny(k, prefixes[..t]) then Put(d, k, v) else d
    {
      if StartsWith(k, prefixes[t]) {
        PutTwice(d, k, v);
        r := Put(r, k, v);
      }
      assert MatchesAny(k, prefixes[..t + 1]) <==> MatchesAny(k, prefixes[..t]) || StartsWith(k, prefixes[t]) by {
        assert prefixes[..t + 1][t] == prefixes[t];
        assert forall j :: 0 <= j < t ==> prefixes[..t + 1][j] == prefixes[..t][j];
      }
      t := t + 1;
    }
    assert prefixes[..t] == prefixes;
  }

  /** One more metadata item is absorbed after the ones before it. */
  lemma AbsorbStep(info: Info, items: Info, i: nat)
    requires i < |items|
    ensures Absorb(info, items[..i + 1]) ==
            if IsCameraTag(items[i].0) then Put(Absorb(info, items[..i]), items[i].0, items[i].1)
            else Absorb(info, items[..i])
  {
    assert items[..i + 1][..i] == items[..i];
  }

  // ---------------------------------------------------------------------------
  // _convert_orientation
  // ---------------------------------------------------------------------------

  /** `camera_info.get('rtt_Camera_Orientation') or ''`. */
  function OrientationValue(info: Info): string
  {
    match Get(info, OrientationTag)
    case Some(s) => s
    case None => ""
  }

  /**
   * `_convert_orientation`: when the space-free orientation value has exactly
   * four comma pieces, the entry becomes `x, y, z, <degrees>`. `degrees` stands
   * for `np.math.degrees(float(angle))` formatted by Python; None means `float`
   * raised. The second component says whether the conversion raised.
   */
  function ConvertedOrientation(info: Info, degrees: string -> Option<string>): (Info, bool)
  {
    var values := Arguments(OrientationValue(info));
    if |values| != 4 then (info, false)
    else
      match degrees(values[3])
      case None => (info, true)
      case Some(d) =>
        (Put(info, OrientationTag, ListText([values[0], values[1], values[2], d])), false)
  }

  /**
   * The orientation entry changes only for a four-piece value, and then becomes
   * `x, y, z, <degrees>` from the space-free pieces; every other entry, and the
   * key set, stay as they were.
   */
  lemma ConvertedOrientationEffect(info: Info, degrees: string -> Option<string>)
    ensures var (r, raised) := ConvertedOrientation(info, degrees);
      var values := Arguments(OrientationValue(info));
      && Keys(r) == Keys(info)
      && (forall k :: k != OrientationTag ==> Get(r, k) == Get(info, k))
      && (raised ==> r == info)
      && (r != info ==>
            && |values| == 4
            && degrees(values[3]).Some?
            && Get(r, OrientationTag) ==
               Some(ListText([values[0], values[1], values[2], degrees(values[3]).value])))
      && (OrientationTag !in Keys(info) ==> r == info && !raised)
  {
    var r := ConvertedOrientation(info, degrees).0;
    var values := Arguments(OrientationValue(info));
    if OrientationTag !in Keys(info) {
      assert OrientationValue(info) == "";
      assert Arguments("") == [""];
    } else if |values| == 4 && degrees(values[3]).Some? {
      var text := ListText([values[0], values[1], values[2], degrees(values[3]).value]);
      assert r == Put(info, OrientationTag, text);
      PutKeys(info, OrientationTag, text);
      forall k | k != OrientationTag ensures Get(r, k) == Get(info, k) {
        PutOther(info, OrientationTag, text, k);
      }
    }
  }

  /**
   * The rewritten orientation reaches DeltaGen as the three space-free axis
   * pieces and the converted angle, provided the angle's text has no space or
   * comma.
   */
  lemma ConvertedOrientationCommand(info: Info, degrees: string -> Option<string>)
    requires var values := Arguments(OrientationValue(info));
      |values| == 4 && degrees(values[3]).Some? &&
      ' ' !in degrees(values[3]).value && ',' !in degrees(values[3]).value
    ensures var values := Arguments(OrientationValue(info));
      EntryCommand(OrientationTag, OrientationValue(ConvertedOrientation(info, degrees).0)) ==
      "ORIENT CAMERA " + values[0] + " " + values[1] + " " + values[2] + " " +
        degrees(values[3]).value + ";"
  {
    var values := Arguments(OrientationValue(info));
    SplitKeepsAbsent(Remove(OrientationValue(info), ' '), ',', ' ');
    OrientationCommand(values[0], values[1], values[2], degrees(values[3]).value);
  }

  // ---------------------------------------------------------------------------
  // validate_offsets
  // ---------------------------------------------------------------------------

  /** The warning lines for the mismatching default-tracked tags, in table order. */
  function OffsetWarnings(info: Info, defaults: seq<(string, string)>): string
  {
    if defaults == [] then ""
    else
      var (tag, default) := defaults[|defaults| - 1];
      var cam := Get(info, tag);
      OffsetWarnings(info, defaults[..|defaults| - 1]) +
        (if cam.Some? && cam.value != default then tag + ": " + default + "<br />" else "")
  }

  /** Every default-tracked tag that is present has its default value. */
  predicate OffsetsValid(info: Info, defaults: seq<(string, string)>)
  {
    forall i :: 0 <= i < |defaults| ==>
      Get(info, defaults[i].0).None? || Get(info, defaults[i].0) == Some(defaults[i].1)
  }

  /** `validate_offsets` fails iff at least one warning line is produced. */
  lemma {:induction false} OffsetWarningsEmptyIffValid(info: Info, defaults: seq<(string, string)>)
    ensures OffsetWarnings(info, defaults) == "" <==> OffsetsValid(info, defaults)
  {
    if defaults != [] {
      var init := defaults[..|defaults| - 1];
      OffsetWarningsEmptyIffValid(info, init);
      var n := |defaults| - 1;
      assert defaults[n] == defaults[|defaults| - 1];
      assert OffsetsValid(info, defaults) <==>
             OffsetsValid(info, init) &&
             (Get(info, defaults[n].0).None? || Get(info, defaults[n].0) == Some(defaults[n].1)) by {
        assert forall i :: 0 <= i < n ==> init[i] == defaults[i];
      }
    }
  }

  /**
   * The loop of `validate_offsets`: one warning line per present tag that
   * differs from its default, in table order; valid iff there is none.
   */
  method CollectOffsetWarnings(info: Info, defaults: seq<(string, string)>) returns (warnMsg: string, valid: bool)
    ensures warnMsg == OffsetWarnings(info, defaults)
    ensures valid <==> warnMsg == ""
    ensures valid <==> OffsetsValid(info, defaults)
  {
    warnMsg := "";
    valid := true;
    var i := 0;
    while i < |defaults|
      invariant 0 <= i <= |defaults|
      invariant warnMsg == OffsetWarnings(info, defaults[..i])
      invariant valid <==> warnMsg == ""
    {
      var (tag, default) := defaults[i];
      var camValue := Get(info, tag);
      if camValue.Some? && camValue.value != default {
        warnMsg := warnMsg + tag + ": " + default + "<br />";
        valid := false;
      }
      assert defaults[..i + 1][..i] == defaults[..i];
      i := i + 1;
    }
    assert defaults[..i] == defaults;
    OffsetWarningsEmptyIffValid(info, defaults);
  }

  // ---------------------------------------------------------------------------
  // read_image as a whole
  // ---------------------------------------------------------------------------

  /** The object's fields `file_is_valid`, `info_is_valid`, `camera_warning`, `camera_info`. */
  datatype CameraState = CameraState(fileIsValid: bool, infoIsValid: bool, warning: string, info: Info)

  /** What `OpenImageUtil.read_img_metadata` gave: its items, or an exception. */
  datatype MetaRead = ReadRaised | Metadata(items: Info)

  /** How `read_image` ended: its return value, or the exception of `float()` in the orientation rewrite. */
  datatype ReadOutcome = Returned(ok: bool) | ConversionRaised

  function ReadImageResult(s: CameraState, pathExists: bool, meta: MetaRead,
                           degrees: string -> Option<string>): (CameraState, ReadOutcome)
  {
    if !pathExists then (s, Returned(false))
    else if meta.ReadRaised? then (s.(fileIsValid := true), Returned(false))
    else
      FilteredResult(s.(fileIsValid := true, info := Absorb(s.info, meta.items)), meta.items == [], degrees)
  }

  /** `read_image` once the tags are filtered into `s.info`. */
  function FilteredResult(s: CameraState, metaEmpty: bool,
                          degrees: string -> Option<string>): (CameraState, ReadOutcome)
  {
    if metaEmpty || s.info == [] then (s, Returned(false))
    else if Keys(s.info) !! CommandTags() then (s, Returned(false))
    else ConvertedResult(s.(infoIsValid := true), degrees)
  }

  /** The tail of `read_image`: orientation rewrite, then offset validation. */
  function ConvertedResult(s: CameraState, degrees: string -> Option<string>): (CameraState, ReadOutcome)
  {
    var (converted, raised) := ConvertedOrientation(s.info, degrees);
    if raised then (s, ConversionRaised)
    else
      var warnings := OffsetWarnings(converted, Defaults);
      (s.(info := converted, warning := if warnings == "" then s.warning else warnings), Returned(true))
  }

  /** The tail of `read_image` for a given outcome of the orientation rewrite. */
  lemma ConvertedResultOf(s: CameraState, degrees: string -> Option<string>, info: Info, raised: bool)
    requires (info, raised) == ConvertedOrientation(s.info, degrees)
    ensures raised ==> info == s.info && ConvertedResult(s, degrees) == (s, ConversionRaised)
    ensures !raised ==>
              var warnings := OffsetWarnings(info, Defaults);
              ConvertedResult(s, degrees) ==
                (s.(info := info, warning := if warnings == "" then s.warning else warnings), Returned(true))
  {
  }

  /**
   * `read_image` returns False without touching `info_is_valid` when the path
   * is missing (then `file_is_valid` is untouched too), the metadata read
   * raised, the metadata is empty, nothing was kept or no kept tag has a
   * command; in every one of these but the first `file_is_valid` is True.
   */
  lemma ReadImageFailures(s: CameraState, pathExists: bool, meta: MetaRead,
                          degrees: string -> Option<string>)
    requires !pathExists || meta.ReadRaised? || meta.items == [] ||
             Absorb(s.info, meta.items) == [] ||
             Keys(Absorb(s.info, meta.items)) !! CommandTags()
    ensures var (r, outcome) := ReadImageResult(s, pathExists, meta, degrees);
      && outcome == Returned(false)
      && r.infoIsValid == s.infoIsValid
      && r.fileIsValid == (pathExists || s.fileIsValid)
      && r.warning == s.warning
  {
  }

  /**
   * When `read_image` returns True, the file and the info are valid, some kept
   * tag has a command, and `camera_info` holds exactly the keys kept from the
   * metadata (plus those it held before).
   */
  lemma ReadImageSuccess(s: CameraState, pathExists: bool, meta: MetaRead,
                         degrees: string -> Option<string>)
    ensures var (r, outcome) := ReadImageResult(s, pathExists, meta, degrees);
      outcome == Returned(true) ==>
        && pathExists && meta.Metadata? && meta.items != []
        && r.fileIsValid && r.infoIsValid && r.info != []
        && Keys(r.info) == Keys(Absorb(s.info, meta.items))
        && !(Keys(r.info) !! CommandTags())
        && (r.warning != s.warning ==> !OffsetsValid(r.info, Defaults))
  {
    var (r, outcome) := ReadImageResult(s, pathExists, meta, degrees);
    if outcome == Returned(true) {
      var absorbed := Absorb(s.info, meta.items);
      ConvertedOrientationEffect(absorbed, degrees);
      OffsetWarningsEmptyIffValid(r.info, Defaults);
      assert |r.info| > 0 by {
        var k :| k in Keys(absorbed);
        assert k in Keys(r.info);
      }
    }
  }

  /** `is_valid`. */
  predicate IsValid(s: CameraState)
  {
    s.fileIsValid && s.infoIsValid && s.info != []
  }

  // ---------------------------------------------------------------------------
  // The object
  // ---------------------------------------------------------------------------

  class ImageCameraInfo {
    const file: string
    var fileIsValid: bool
    var infoIsValid: bool
    var cameraWarning: string
    var cameraInfo: Info

    function State(): CameraState
      reads this
    {
      CameraState(fileIsValid, infoIsValid, cameraWarning, cameraInfo)
    }

    constructor (file: string)
      ensures this.file == file
      ensures State() == CameraState(false, false, InitialWarning, [])
    {
      this.file := file;
      fileIsValid := false;
      infoIsValid := false;
      cameraWarning := InitialWarning;
      cameraInfo := [];
    }

    /** `is_valid()`. */
    function Valid(): (r: bool)
      reads this
      ensures r <==> IsValid(State())
    {
      fileIsValid && infoIsValid && |cameraInfo| > 0
    }

    method ReadImage(pathExists: bool, meta: MetaRead, degrees: string -> Option<string>)
      returns (outcome: ReadOutcome)
      modifies this
      ensures (State(), outcome) == ReadImageResult(old(State()), pathExists, meta, degrees)
    {
      if pathExists {
        fileIsValid := true;
      } else {
        return Returned(false);
      }

      if meta.ReadRaised? {
        return Returned(false);
      }
      var items := meta.items;

      var info := FilterCameraTags(cameraInfo, items);
      cameraInfo := info;
      ghost var filtered := State();
      assert ReadImageResult(old(State()), pathExists, meta, degrees) ==
             FilteredResult(filtered, items == [], degrees);

      if items == [] || cameraInfo == [] {
        return Returned(false);
      }
      if Keys(cameraInfo) !! CommandTags() {
        return Returned(false);
      }
      infoIsValid := true;
      outcome := ConvertAndValidate(degrees);
    }

    /** The tail of `read_image`, after the info was found valid. */
    method ConvertAndValidate(degrees: string -> Option<string>) returns (outcome: ReadOutcome)
      modifies this
      ensures (State(), outcome) == ConvertedResult(old(State()), degrees)
    {
      ghost var s := old(State());
      var raised := ConvertOrientation(degrees);
      ConvertedResultOf(s, degrees, cameraInfo, raised);
      if raised {
        return ConversionRaised;
      }
      ghost var converted := cameraInfo;
      var _ := ValidateOffsets();
      assert State() == s.(info := converted, warning := cameraWarning);
      outcome := Returned(true);
    }

    /** `_convert_orientation`; `raised` reports the exception of `float()`. */
    method ConvertOrientation(degrees: string -> Option<string>) returns (raised: bool)
      modifies this`cameraInfo
      ensures (cameraInfo, raised) == ConvertedOrientation(old(cameraInfo), degrees)
    {
      var v := match Get(cameraInfo, OrientationTag) case Some(s) => s case None => "";
      var values := Split(Remove(v, ' '), ',');
      if |values| != 4 {
        return false;
      }
      var angle := degrees(values[3]);
      if angle.None? {
        return true;
      }
      cameraInfo := Put(cameraInfo, OrientationTag,
                        ListText([values[0], values[1], values[2], angle.value]));
      return false;
    }

    /** `validate_offsets`: the warning is replaced only when some offset differs. */
    method ValidateOffsets() returns (valid: bool)
      modifies this`cameraWarning
      ensures valid <==> OffsetWarnings(cameraInfo, Defaults) == ""
      ensures cameraWarning == if valid then old(cameraWarning) else OffsetWarnings(cameraInfo, Defaults)
    {
      var warnMsg;
      warnMsg, valid := CollectOffsetWarnings(cameraInfo, Defaults);
      if !valid {
        cameraWarning := warnMsg;
      }
    }

    /** `create_deltagen_camera_cmd`. */
    method CreateDeltaGenCameraCmd() returns (cmd: string)
      ensures cmd == CommandString(cameraInfo)
    {
      var info := cameraInfo;
      cmd := "";
      var i := 0;
      while i < |info|
        invariant 0 <= i <= |info|
        invariant cmd == CommandString(info[..i])
      {
        var tag, value := info[i].0, info[i].1;
        var entry := EntryText(tag, value);
        cmd := cmd + entry;
        CommandStringStep(info, i);
        i := i + 1;
      }
      assert info[..i] == info;
    }
  }
}
