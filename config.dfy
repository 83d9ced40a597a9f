/**
 * ConfigBase.Init: the choice of where the configuration is read from, and
 * of the format and file it is written to. Reading, decoding, marshalling
 * and writing are parameters; the written configuration is an opaque text.
 */
module Config {
  import opened Wrappers
  import opened GoStrings

  const ErrUnsupportedOutputFormat := "unsupported output format"
  const DefaultFormat := "json"

  datatype ConfigBase = ConfigBase(sourceOfConfig: string, outputOfConfig: string)

  /** The source is fetched over HTTP exactly when it is an http:// or https:// URL. */
  predicate IsHttpSource(src: string)
  {
    HasPrefix(src, "http://") || HasPrefix(src, "https://")
  }

  /**
   * The format and filename an output spec names: "format:file" with one
   * ':', otherwise the whole spec as the filename, with the text after its
   * last '.' as the format when there is one.
   */
  function OutputTarget(spec: string): (r: (string, string))
    ensures r.0 != ""
    ensures Count(spec, ':') != 1 ==> r.1 == spec
  {
    SplitLength(spec, ':');
    var out := Split(spec, ':');
    if |out| == 2 then
      (if out[0] != "" then out[0] else DefaultFormat, out[1])
    else if |out| == 1 then
      var i := LastIndex(spec, '.');
      (if i > 0 && i + 1 < |spec| then spec[i + 1..] else DefaultFormat, spec)
    else (DefaultFormat, spec)
  }

  /** Only json and xml can be written. */
  predicate SupportedFormat(format: string)
  {
    format == "json" || format == "xml"
  }

  /** With exactly one ':', the format is the text before it (json when empty) and the file the text after it. */
  lemma OneColon(spec: string)
    requires Count(spec, ':') == 1
    ensures var i := IndexOf(spec, ':');
      0 <= i && OutputTarget(spec) == (if i > 0 then spec[..i] else DefaultFormat, spec[i + 1..])
  {
    SplitLength(spec, ':');
    var i := IndexOf(spec, ':');
    SplitLength(spec[i + 1..], ':');
  }

  /**
   * With no ':', the file is the whole spec, and the format is what follows
   * the last '.' when that dot is neither the first nor the last character.
   */
  lemma NoColon(spec: string)
    requires ':' !in spec
    ensures var i := LastIndex(spec, '.');
      OutputTarget(spec) == (if 0 < i < |spec| - 1 then spec[i + 1..] else DefaultFormat, spec)
  {
    SplitLength(spec, ':');
  }

  /** With two or more ':', the format is json and the file is the whole spec. */
  lemma ManyColons(spec: string)
    requires Count(spec, ':') >= 2
    ensures OutputTarget(spec) == (DefaultFormat, spec)
  {
    SplitLength(spec, ':');
  }

  /** An explicit format is taken as it is. */
  lemma ExplicitFormatExample(spec: string)
    requires spec == "xml:a"
    ensures OutputTarget(spec) == ("xml", "a")
  {
    assert spec[3] == ':' && ':' !in spec[..3] && ':' !in spec[4..];
    CountAppend(spec[..4], spec[4..], ':');
    CountAppend(spec[..3], [':'], ':');
    assert spec == spec[..4] + spec[4..] && spec[..4] == spec[..3] + [':'];
    IndexOfAt(spec, ':', 3);
    assert spec[..3] == "xml" && spec[4..] == "a";
    OneColon(spec);
  }

  /** An empty format falls back to json. */
  lemma EmptyFormatExample(spec: string)
    requires spec == ":a"
    ensures OutputTarget(spec) == ("json", "a")
  {
    assert ':' !in spec[1..];
    CountAppend([':'], spec[1..], ':');
    assert spec == [':'] + spec[1..];
    IndexOfAt(spec, ':', 0);
    OneColon(spec);
  }

  /** An extension gives the format; a leading or trailing dot does not. */
  lemma ExtensionExamples()
    ensures OutputTarget("c.xml") == ("xml", "c.xml")
    ensures OutputTarget(".xml") == ("json", ".xml")
    ensures OutputTarget("a.") == ("json", "a.")
  {
    NoColon("c.xml");
    assert LastIndex("c.xml", '.') == 1;
    NoColon(".xml");
    assert LastIndex(".xml", '.') == 0;
    NoColon("a.");
    assert LastIndex("a.", '.') == 1;
  }

  /** The services Init uses, whose code is not part of this model; an error is its message. */
  datatype Services = Services(
    /** http.Get and decoding of the body: a failed request, a status other than 200 (its status text) or a decoding error. */
    readHttp: string -> Option<string>,
    /** os.Open and decoding of the file. */
    readFile: string -> Option<string>,
    /** json.MarshalIndent or xml.MarshalIndent of the configuration, by format. */
    marshal: string -> Result<string, string>,
    /** ioutil.WriteFile. */
    writeFile: (string, string) -> Option<string>)

  /** How Init ends: it returns an error (or nil), or the process exits with status 2 after writing the file. */
  datatype InitEnd = Returned(err: Option<string>) | Exited(code: int, filename: string, stdout: string)

  /** The outcome of writing the configuration to the target an output spec names. */
  function OutputStep(output: string, sv: Services): InitEnd
  {
    var (format, filename) := OutputTarget(output);
    if !SupportedFormat(format) then Returned(Some(ErrUnsupportedOutputFormat))
    else
      var data := sv.marshal(format);
      if data.Err? then Returned(Some(data.error))
      else
        var w := sv.writeFile(filename, data.value);
        if w.Some? then Returned(w)
        else Exited(2, filename, "config output to file " + filename + "\n")
  }

  /** Init: read the configuration from its source, then write it out; an empty field skips its step. */
  function Init(c: ConfigBase, sv: Services): (r: InitEnd)
  {
    var readErr := ReadStep(c, sv);
    if readErr.Some? then Returned(Some("read config from " + c.sourceOfConfig + ": " + readErr.value))
    else if c.outputOfConfig == "" then Returned(None)
    else OutputStep(c.outputOfConfig, sv)
  }

  /** The error of the read step: none when there is no source, otherwise the reader chosen by the source's kind. */
  function ReadStep(c: ConfigBase, sv: Services): Option<string>
  {
    if c.sourceOfConfig == "" then None
    else if IsHttpSource(c.sourceOfConfig) then sv.readHttp(c.sourceOfConfig)
    else sv.readFile(c.sourceOfConfig)
  }

  /**
   * Init's outcome: a read failure is reported with the source in front and
   * nothing is written; after a successful read (or none) an empty output
   * returns nil and any other output goes to OutputStep.
   */
  lemma InitRules(c: ConfigBase, sv: Services)
    ensures ReadStep(c, sv).Some? ==>
      Init(c, sv) == Returned(Some("read config from " + c.sourceOfConfig + ": " + ReadStep(c, sv).value))
    ensures ReadStep(c, sv).None? ==>
      Init(c, sv) == if c.outputOfConfig == "" then Returned(None) else OutputStep(c.outputOfConfig, sv)
    ensures c.sourceOfConfig == "" && c.outputOfConfig == "" ==> Init(c, sv) == Returned(None)
    ensures Init(c, sv).Exited? ==> c.outputOfConfig != ""
  {
  }

  /**
   * OutputStep: a format other than json or xml is refused before anything
   * is marshalled; otherwise a marshalling or write error is returned, and
   * success means exit status 2 after writing the named file.
   */
  lemma OutputRules(output: string, sv: Services)
    ensures !SupportedFormat(OutputTarget(output).0) ==> OutputStep(output, sv) == Returned(Some(ErrUnsupportedOutputFormat))
    ensures OutputStep(output, sv).Exited? <==>
      SupportedFormat(OutputTarget(output).0) && sv.marshal(OutputTarget(output).0).Ok?
      && sv.writeFile(OutputTarget(output).1, sv.marshal(OutputTarget(output).0).value).None?
    ensures OutputStep(output, sv).Exited? ==>
      OutputStep(output, sv).code == 2 && OutputStep(output, sv).filename == OutputTarget(output).1
  {
  }

  /** A source is an HTTP one only by its scheme prefix: a file named "http" is read as a file. */
  lemma SourceKinds()
    ensures IsHttpSource("http://a") && IsHttpSource("https://a")
    ensures !IsHttpSource("http") && !IsHttpSource("ftp://a") && !IsHttpSource("HTTP://a")
  {
    assert "http://a"[..7] == "http://";
    assert "https://a"[..8] == "https://";
    assert "HTTP://a"[..7] != "http://" by { assert "HTTP://a"[0] != "http://"[0]; }
    assert "HTTP://a"[..8] != "https://" by { assert "HTTP://a"[0] != "https://"[0]; }
    assert "ftp://a"[..7] != "http://" by { assert "ftp://a"[0] != "http://"[0]; }
  }
}
