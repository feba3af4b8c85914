/** Start-up keys: reading `keys.txt` and choosing the OpenAI and ElevenLabs
    keys from the command line or from that file. */
module Keys {
  import opened Text

  const OpenAILabel := "OpenAI_Key="
  const ElevenLabel := "ElevenLabs_Key="
  /** What a fresh key file holds: both labels with empty values. */
  const Template := "OpenAI_Key=\nElevenLabs_Key="

  /** A label as the key file uses them: no newline, and its only '=' is the last character. */
  predicate IsLabel(marker: string) {
    |marker| >= 1 && marker[|marker| - 1] == '=' && '\n' !in marker &&
    forall j :: 0 <= j < |marker| - 1 ==> marker[j] != '='
  }

  /** Python's `re.search(label + '.*', data).group()`: the first occurrence of
      the label and the rest of its line, since `.` does not match a newline;
      the match is greedy, so it ends at a newline or at the end of the data. */
  function SearchLabel(data: string, marker: string): (m: Option<string>)
    ensures m.None? <==> !Contains(data, marker)
    ensures m.Some? ==> marker <= m.value && '\n' !in m.value[|marker|..]
    ensures m.Some? ==>
      var i := Find(data, marker).value;
      OccursAt(data, m.value, i) && (i + |m.value| == |data| || data[i + |m.value|] == '\n')
  {
    if Contains(data, marker) then
      var line := TakeUntil(After(data, marker), '\n');
      LabelMatchAt(data, marker);
      assert (marker + line)[|marker|..] == line;
      Some(marker + line)
    else None
  }

  /** The label and the rest of its line sit in the data at the label's first
      occurrence, and a newline or the end of the data follows them. */
  lemma LabelMatchAt(data: string, marker: string)
    requires Contains(data, marker)
    ensures var i := Find(data, marker).value;
      var m := marker + TakeUntil(After(data, marker), '\n');
      OccursAt(data, m, i) && (i + |m| == |data| || data[i + |m|] == '\n')
  {
    var i := Find(data, marker).value;
    var rest := After(data, marker);
    var line := TakeUntil(rest, '\n');
    assert data[i..i + |marker|] == marker;
    assert data[i + |marker|..i + |marker| + |line|] == rest[..|line|] == line;
    assert data[i..i + |marker| + |line|] ==
      data[i..i + |marker|] + data[i + |marker|..i + |marker| + |line|];
    assert |line| < |rest| ==> data[i + |marker| + |line|] == rest[|line|];
  }

  /** Python's `group.split('=')[1].replace(' ', '')` on a matched label line. */
  function KeyValue(line: string): (key: string)
    requires Contains(line, "=")
    ensures ' ' !in key
  {
    RemoveChar(SplitSecond(line, "="), ' ')
  }

  /** The key on a line that `SearchLabel` matched: such a line always holds
      an '=', so the `split` cannot fail there. */
  function LineKey(line: string, marker: string): (key: string)
    requires IsLabel(marker) && marker <= line
    ensures ' ' !in key
  {
    LabelLineSeparates(marker, line[|marker|..]);
    assert marker + line[|marker|..] == line;
    KeyValue(line)
  }

  /** What the parse returns: whether the keys count as loaded, the OpenAI key
      (a single space when it is missing) and the ElevenLabs key ('' when it is
      missing), and the text written to a key file that did not exist. */
  datatype KeyLoad = KeyLoad(loaded: bool, openai: string, eleven: string, written: Option<string>)

  /** `load_keys_from_file` with the file given as its contents, or None when
      it does not exist. */
  function LoadKeys(file: Option<string>): (k: KeyLoad)
    ensures k.loaded <==> file.Some? && Contains(file.value, OpenAILabel)
    ensures !k.loaded ==> k.openai == " " && k.eleven == ""
    ensures k.written.Some? <==> file.None?
    ensures k.written.Some? ==> k.written.value == Template
  {
    match file
    case None => KeyLoad(false, " ", "", Some(Template))
    case Some(data) =>
      var openai := SearchLabel(data, OpenAILabel);
      if openai.None? then KeyLoad(false, " ", "", None)
      else
        OpenAILabelShape();
        ElevenLabelShape();
        var eleven := SearchLabel(data, ElevenLabel);
        KeyLoad(true, LineKey(openai.value, OpenAILabel),
                if eleven.None? then "" else LineKey(eleven.value, ElevenLabel), None)
  }

  lemma OpenAILabelShape()
    ensures IsLabel(OpenAILabel)
  {
  }

  lemma ElevenLabelShape()
    ensures IsLabel(ElevenLabel)
  {
  }

  /** A line that starts with a label contains '='. */
  lemma LabelLineSeparates(marker: string, rest: string)
    requires IsLabel(marker)
    ensures Contains(marker + rest, "=")
  {
    assert (marker + rest)[|marker| - 1..|marker|] == "=";
    OccursContains(marker + rest, "=", |marker| - 1);
  }

  /** The key a label introduces: the text after the label's first occurrence,
      up to the next '=' or the end of its line, with every space removed. */
  function FieldKey(data: string, marker: string): (key: string)
    requires Contains(data, marker)
    ensures ' ' !in key && '=' !in key && '\n' !in key
  {
    var field := TakeUntil(TakeUntil(After(data, marker), '\n'), '=');
    RemoveCharSubset(field, ' ', '=');
    RemoveCharSubset(field, ' ', '\n');
    RemoveChar(field, ' ')
  }

  /** The first '=' of a label line is the label's own. */
  lemma {:induction false} LabelSeparatorFirst(marker: string, rest: string)
    requires IsLabel(marker)
    ensures Find(marker + rest, "=") == Some(|marker| - 1)
  {
    var line := marker + rest;
    assert line[|marker| - 1..|marker|] == "=";
    forall j: nat | j < |marker| - 1
      ensures !OccursAt(line, "=", j)
    {
      assert line[j] == marker[j];
    }
    FindAt(line, "=", |marker| - 1);
  }

  /** The piece of a label line between the label's '=' and the next one is
      the text after the label up to its first '='. */
  lemma {:induction false} LabelLineValue(marker: string, rest: string)
    requires IsLabel(marker)
    ensures Contains(marker + rest, "=") &&
      SplitSecond(marker + rest, "=") == TakeUntil(rest, '=')
  {
    LabelLineSeparates(marker, rest);
    LabelSeparatorFirst(marker, rest);
    var line := marker + rest;
    assert After(line, "=") == rest;
    var r := SplitSecond(line, "=");
    NoCharWithout(r, '=');
    if r != rest {
      assert r + "=" <= rest;
      assert rest[|r|] == '=';
    }
    PrefixUntilUnique(rest, '=', r, TakeUntil(rest, '='));
  }

  /** A key read from the file is the label's field with its spaces removed. */
  lemma {:induction false} KeyFromLine(data: string, marker: string)
    requires IsLabel(marker) && Contains(data, marker)
    ensures LineKey(SearchLabel(data, marker).value, marker) == FieldKey(data, marker)
  {
    var line := SearchLabel(data, marker).value;
    var rest := line[|marker|..];
    assert rest == TakeUntil(After(data, marker), '\n');
    assert marker + rest == line;
    LabelLineValue(marker, rest);
  }

  /** The keys `load_keys_from_file` returns from an existing file: the
      OpenAI key is its field, and the ElevenLabs key is its field when its
      label occurs and '' when it does not. */
  lemma LoadedKeys(data: string)
    requires Contains(data, OpenAILabel)
    ensures LoadKeys(Some(data)).openai == FieldKey(data, OpenAILabel)
    ensures LoadKeys(Some(data)).eleven ==
      if Contains(data, ElevenLabel) then FieldKey(data, ElevenLabel) else ""
  {
    OpenAILabelShape();
    ElevenLabelShape();
    KeyFromLine(data, OpenAILabel);
    if Contains(data, ElevenLabel) {
      KeyFromLine(data, ElevenLabel);
    }
  }

  /** How the program starts: it exits, or it launches with an OpenAI key and
      an ElevenLabs key. */
  datatype Startup = Exit | Launch(key: string, key11: string)

  /** The key selection of `GUI.__init__`, where `argv[0]` is the program name. */
  function SelectKeys(argv: seq<string>, file: Option<string>): (s: Startup)
    ensures |argv| > 2 ==> s == Launch(argv[1], argv[2])
    ensures |argv| == 2 ==> s == Launch(argv[1], "")
    ensures |argv| < 2 && s.Launch? ==> LoadKeys(file).loaded && s.key != ""
  {
    if |argv| < 2 then
      var keys := LoadKeys(file);
      if !keys.loaded then Exit
      else if keys.openai == "" then Exit
      else Launch(keys.openai, keys.eleven)
    else if |argv| == 2 then Launch(argv[1], "")
    else Launch(argv[1], argv[2])
  }

  /** Without a key on the command line the program launches exactly when the
      file gives a non-empty OpenAI key, and then with the file's keys. */
  lemma FileLaunch(argv: seq<string>, data: string)
    requires |argv| < 2
    ensures SelectKeys(argv, Some(data)).Launch? <==>
      Contains(data, OpenAILabel) && FieldKey(data, OpenAILabel) != ""
    ensures SelectKeys(argv, Some(data)).Launch? ==>
      SelectKeys(argv, Some(data)) ==
        Launch(FieldKey(data, OpenAILabel),
               if Contains(data, ElevenLabel) then FieldKey(data, ElevenLabel) else "")
  {
    if Contains(data, OpenAILabel) {
      LoadedKeys(data);
    }
  }

  /** A missing key file makes the program exit (after writing the template). */
  lemma MissingFileExits(argv: seq<string>)
    requires |argv| < 2
    ensures SelectKeys(argv, None) == Exit
    ensures LoadKeys(None).written == Some(Template)
  {
  }

  /** The template written on a first run still holds no key, so the next run
      without arguments exits too. */
  lemma {:induction false} TemplateExits(argv: seq<string>)
    requires |argv| < 2
    ensures SelectKeys(argv, Some(Template)) == Exit
  {
    assert Template == OpenAILabel + "\nElevenLabs_Key=";
    assert OccursAt(Template, OpenAILabel, 0);
    FindAt(Template, OpenAILabel, 0);
    assert After(Template, OpenAILabel) == "\nElevenLabs_Key=";
    assert TakeUntil("\nElevenLabs_Key=", '\n') == [];
    LoadedKeys(Template);
  }
}
