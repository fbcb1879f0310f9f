/**
 * The example dictionary of modules/utils/camera_info.py and the command
 * string it translates to. Each step keeps literal text apart from the
 * functions applied to it, so that no literal is evaluated character by
 * character inside a function.
 */
module CameraExample {
  import opened Text
  import opened CameraInfo

  /** `camera_example_info`, in five consecutive parts. */
  const CameraExampleInfo: Info := ExampleHead + ExampleLens + ExamplePose + ExampleImage + ExampleClip

  const ExampleHead: Info := [("Software", "3DEXCITE DELTAGEN 2017.1"), ("rtt_Camera_FOV", "38.8801")]

  const ExampleLens: Info := [
    ("rtt_Camera_FocalLength", "34"), ("rtt_Camera_Projection", "1"), ("rtt_Camera_EyeSeparation", "77.44"),
    ("rtt_Camera_ConvergenceDistance", "34"), ("rtt_Camera_PreScale", "1"), ("rtt_Camera_Overscan", "1"),
    ("rtt_Camera_HorizontalFilmOffset", "0"), ("rtt_Camera_VerticalFilmOffset", "0"),
    ("rtt_Camera_HorizontalSensorSize", "36"), ("rtt_Camera_VerticalSensorSize", "24"), ("rtt_Camera_FilmFit", "2"),
    ("rtt_Camera_RenderOutputWidth", "2880"), ("rtt_Camera_RenderOutputHeight", "1620")
  ]

  const ExamplePose: Info := [
    ("rtt_Camera_Position", "-221.522, -143.877, 88.475"),
    ("rtt_Camera_Orientation", "0.734806, -0.397707, " + "-0.549444, 89.13848193527295")
  ]

  const ExampleImage: Info := [
    ("rtt_BackgroundColor_RGBA", "1, 1, 1, 1"), ("rtt_width", "1920"), ("rtt_height", "1080"),
    ("rtt_antiAliasQuality", "8"), ("rtt_FileName", "Some_File.csb")
  ]

  const ExampleClip: Info := [("knecht_clip_near", "100.0"), ("knecht_clip_far", "10000.0")]

  /** The five tags of `rtt_camera_cmds`. */
  lemma CommandTagsAre()
    ensures CommandTags() ==
      {"rtt_Camera_FOV", "rtt_Camera_Position", "rtt_Camera_Orientation", "knecht_clip_near", "knecht_clip_far"}
  {
    forall x | x in CommandTags()
      ensures x in {"rtt_Camera_FOV", "rtt_Camera_Position", "rtt_Camera_Orientation",
                    "knecht_clip_near", "knecht_clip_far"}
    {
      var i :| 0 <= i < |Commands| && Commands[i].0 == x;
    }
    assert Commands[0].0 in CommandTags();
    assert Commands[1].0 in CommandTags();
    assert Commands[2].0 in CommandTags();
    assert Commands[3].0 in CommandTags();
    assert Commands[4].0 in CommandTags();
  }

  /** Two entries give their two commands in order. */
  lemma Pair(a: (string, string), b: (string, string))
    ensures CommandString([a, b]) == EntryCommand(a.0, a.1) + EntryCommand(b.0, b.1)
  {
    assert [a, b] == [a] + [b];
    CommandStringAppend([a], [b]);
    SingleEntry(a);
    SingleEntry(b);
  }

  lemma LensSilent()
    ensures CommandString(ExampleLens) == ""
  {
    CommandTagsAre();
    NonCommandTagsIgnored(ExampleLens);
  }

  lemma ImageSilent()
    ensures CommandString(ExampleImage) == ""
  {
    CommandTagsAre();
    NonCommandTagsIgnored(ExampleImage);
  }

  // Literal text: the values as `", ".join` of their pieces, and the commands
  // as the concatenations the templates produce.

  lemma PositionValueText()
    ensures ListText(["-221.522", "-143.877", "88.475"]) == "-221.522, -143.877, 88.475"
  {
    var p := ["-221.522", "-143.877", "88.475"];
    assert p[1..] == ["-143.877", "88.475"];
    assert p[1..][1..] == ["88.475"];
    var x, y := ListText(p), "-221.522, -143.877, 88.475";
    assert x == "-221.522" + ", " + ("-143.877" + ", " + "88.475");
    assert |x| == |y|;
    forall i | 0 <= i < |y| ensures x[i] == y[i] {}
  }

  /** Four pieces joined by `", "`. */
  lemma ListTextOfFour(a: string, b: string, c: string, d: string)
    ensures ListText([a, b, c, d]) == a + ", " + b + ", " + (c + ", " + d)
  {
    var q := [a, b, c, d];
    assert q[1..] == [b, c, d];
    assert q[1..][1..] == [c, d];
    assert q[1..][1..][1..] == [d];
    var t := c + ", " + d;
    assert ListText([c, d]) == t;
    assert ListText([b, c, d]) == b + ", " + t;
    assert ListText(q) == a + ", " + (b + ", " + t);
    assert a + ", " + (b + ", " + t) == a + ", " + b + ", " + t;
  }

  lemma OrientationValueHead()
    ensures "0.734806" + ", " + "-0.397707" + ", " == "0.734806, -0.397707, "
  {
    var x, y := "0.734806" + ", " + "-0.397707" + ", ", "0.734806, -0.397707, ";
    assert |x| == |y|;
    forall i | 0 <= i < |y| ensures x[i] == y[i] {}
  }

  lemma OrientationValueTail()
    ensures "-0.549444" + ", " + "89.13848193527295" == "-0.549444, 89.13848193527295"
  {
    var x, y := "-0.549444" + ", " + "89.13848193527295", "-0.549444, 89.13848193527295";
    assert |x| == |y|;
    forall i | 0 <= i < |y| ensures x[i] == y[i] {}
  }

  lemma OrientationValueText()
    ensures ListText(["0.734806", "-0.397707", "-0.549444", "89.13848193527295"]) ==
            "0.734806, -0.397707, " + "-0.549444, 89.13848193527295"
  {
    ListTextOfFour("0.734806", "-0.397707", "-0.549444", "89.13848193527295");
    OrientationValueHead();
    OrientationValueTail();
  }

  lemma FovText()
    ensures "FOV CAMERA " + "38.8801" + ";" == "FOV CAMERA 38.8801;"
  {
    var x, y := "FOV CAMERA " + "38.8801" + ";", "FOV CAMERA 38.8801;";
    assert |x| == |y|;
    forall i | 0 <= i < |y| ensures x[i] == y[i] {}
  }

  lemma PositionText()
    ensures "POS CAMERA " + "-221.522" + " " + "-143.877" + " " + "88.475" + ";" ==
            "POS CAMERA -221.522 -143.877 88.475;"
  {
    var x := "POS CAMERA " + "-221.522" + " " + "-143.877" + " " + "88.475" + ";";
    var y := "POS CAMERA -221.522 -143.877 88.475;";
    assert |x| == |y|;
    forall i | 0 <= i < |y| ensures x[i] == y[i] {}
  }

  lemma OrientationTextHead()
    ensures "ORIENT CAMERA " + "0.734806" + " " + "-0.397707" == "ORIENT CAMERA 0.734806 -0.397707"
  {
    var a, u := "ORIENT CAMERA " + "0.734806" + " " + "-0.397707", "ORIENT CAMERA 0.734806 -0.397707";
    assert |a| == |u|;
    forall i | 0 <= i < |u| ensures a[i] == u[i] {}
  }

  lemma OrientationTextTail()
    ensures " " + "-0.549444" + " " + "89.13848193527295" + ";" == " -0.549444 89.13848193527295;"
  {
    var b, v := " " + "-0.549444" + " " + "89.13848193527295" + ";", " -0.549444 89.13848193527295;";
    assert |b| == |v|;
    forall i | 0 <= i < |v| ensures b[i] == v[i] {}
  }

  lemma OrientationText()
    ensures "ORIENT CAMERA " + "0.734806" + " " + "-0.397707" + " " + "-0.549444" + " " +
            "89.13848193527295" + ";" == "ORIENT CAMERA 0.734806 -0.397707" + " -0.549444 89.13848193527295;"
  {
    var a := "ORIENT CAMERA " + "0.734806" + " " + "-0.397707";
    var b := " " + "-0.549444" + " " + "89.13848193527295" + ";";
    OrientationTextHead();
    OrientationTextTail();
    assert "ORIENT CAMERA " + "0.734806" + " " + "-0.397707" + " " + "-0.549444" + " " +
           "89.13848193527295" + ";" == a + b;
  }

  lemma ClipNearText()
    ensures "CLIPPLANE_NEAR CAMERA " + "100.0" + ";" == "CLIPPLANE_NEAR CAMERA 100.0;"
  {
    var x, y := "CLIPPLANE_NEAR CAMERA " + "100.0" + ";", "CLIPPLANE_NEAR CAMERA 100.0;";
    assert |x| == |y|;
    forall i | 0 <= i < |y| ensures x[i] == y[i] {}
  }

  lemma ClipFarText()
    ensures "CLIPPLANE_FAR CAMERA " + "10000.0" + ";" == "CLIPPLANE_FAR CAMERA 10000.0;"
  {
    var u, v := "CLIPPLANE_FAR CAMERA " + "10000.0" + ";", "CLIPPLANE_FAR CAMERA 10000.0;";
    assert |u| == |v|;
    forall i | 0 <= i < |v| ensures u[i] == v[i] {}
  }

  // The commands of the parts.

  lemma FovCommandOfExample()
    ensures EntryCommand("rtt_Camera_FOV", "38.8801") == "FOV CAMERA 38.8801;"
  {
    ArgumentsOfListText(["38.8801"]);
    SingleFieldCommands("38.8801");
    FovText();
  }

  lemma SoftwareSilent()
    ensures EntryCommand("Software", "3DEXCITE DELTAGEN 2017.1") == ""
  {
    CommandTagsAre();
    NoCommandOutsideTable("Software", "3DEXCITE DELTAGEN 2017.1");
  }

  lemma HeadCommands()
    ensures CommandString(ExampleHead) == "FOV CAMERA 38.8801;"
  {
    Pair(ExampleHead[0], ExampleHead[1]);
    SoftwareSilent();
    FovCommandOfExample();
  }

  lemma PositionCommandOfExample()
    ensures EntryCommand("rtt_Camera_Position", "-221.522, -143.877, 88.475") ==
            "POS CAMERA -221.522 -143.877 88.475;"
  {
    PositionValueText();
    PositionCommand("-221.522", "-143.877", "88.475");
    PositionText();
  }

  /** The orientation pieces hold no space and no comma. */
  lemma OrientationPiecesClean()
    ensures ' ' !in "0.734806" && ',' !in "0.734806" && ' ' !in "-0.397707" && ',' !in "-0.397707"
    ensures ' ' !in "-0.549444" && ',' !in "-0.549444"
    ensures ' ' !in "89.13848193527295" && ',' !in "89.13848193527295"
  {
  }

  lemma OrientationCommandOfExample()
    ensures EntryCommand(OrientationTag, "0.734806, -0.397707, " + "-0.549444, 89.13848193527295") ==
            "ORIENT CAMERA 0.734806 -0.397707" + " -0.549444 89.13848193527295;"
  {
    OrientationValueText();
    OrientationPiecesClean();
    OrientationCommand("0.734806", "-0.397707", "-0.549444", "89.13848193527295");
    OrientationText();
  }

  lemma PoseCommands()
    ensures CommandString(ExamplePose) ==
      "POS CAMERA -221.522 -143.877 88.475;" + ("ORIENT CAMERA 0.734806 -0.397707" + " -0.549444 89.13848193527295;")
  {
    Pair(ExamplePose[0], ExamplePose[1]);
    PositionCommandOfExample();
    OrientationCommandOfExample();
  }

  lemma ClipNearCommandOfExample()
    ensures EntryCommand("knecht_clip_near", "100.0") == "CLIPPLANE_NEAR CAMERA 100.0;"
  {
    ArgumentsOfListText(["100.0"]);
    SingleFieldCommands("100.0");
    ClipNearText();
  }

  lemma ClipFarCommandOfExample()
    ensures EntryCommand("knecht_clip_far", "10000.0") == "CLIPPLANE_FAR CAMERA 10000.0;"
  {
    ArgumentsOfListText(["10000.0"]);
    SingleFieldCommands("10000.0");
    ClipFarText();
  }

  lemma ClipCommands()
    ensures CommandString(ExampleClip) == "CLIPPLANE_NEAR CAMERA 100.0;" + "CLIPPLANE_FAR CAMERA 10000.0;"
  {
    Pair(ExampleClip[0], ExampleClip[1]);
    ClipNearCommandOfExample();
    ClipFarCommandOfExample();
  }

  /** Five consecutive parts, the second and fourth silent, give the commands of the other three. */
  lemma SilentParts(head: Info, lens: Info, pose: Info, image: Info, clip: Info)
    requires CommandString(lens) == "" && CommandString(image) == ""
    ensures CommandString(head + lens + pose + image + clip) ==
            CommandString(head) + CommandString(pose) + CommandString(clip)
  {
    var h, p, c := CommandString(head), CommandString(pose), CommandString(clip);
    CommandStringAppend(head, lens);
    assert CommandString(head + lens) == h by {
      assert h + "" == h;
    }
    CommandStringAppend(head + lens, pose);
    CommandStringAppend(head + lens + pose, image);
    assert CommandString(head + lens + pose + image) == h + p by {
      assert (h + p) + "" == h + p;
    }
    CommandStringAppend(head + lens + pose + image, clip);
  }

  /** Only the head, the pose and the clip planes give commands. */
  lemma ExampleCommandParts()
    ensures CommandString(CameraExampleInfo) ==
      CommandString(ExampleHead) + CommandString(ExamplePose) + CommandString(ExampleClip)
  {
    LensSilent();
    ImageSilent();
    SilentParts(ExampleHead, ExampleLens, ExamplePose, ExampleImage, ExampleClip);
  }

  /** The command string `camera_example_info` translates to. */
  lemma ExampleCommandString()
    ensures CommandString(CameraExampleInfo) ==
      "FOV CAMERA 38.8801;" + "POS CAMERA -221.522 -143.877 88.475;" +
      ("ORIENT CAMERA 0.734806 -0.397707" + " -0.549444 89.13848193527295;") +
      ("CLIPPLANE_NEAR CAMERA 100.0;" + "CLIPPLANE_FAR CAMERA 10000.0;")
  {
    ExampleCommandParts();
    HeadCommands();
    PoseCommands();
    ClipCommands();
    Regroup("FOV CAMERA 38.8801;", "POS CAMERA -221.522 -143.877 88.475;",
            "ORIENT CAMERA 0.734806 -0.397707" + " -0.549444 89.13848193527295;",
            "CLIPPLANE_NEAR CAMERA 100.0;" + "CLIPPLANE_FAR CAMERA 10000.0;");
  }

  lemma Regroup(a: string, b: string, c: string, d: string)
    ensures a + (b + c) + d == a + b + c + d
  {
  }
}
