/** The glue of encoding/jsonx/jsonx.go: the scanner mode Read asks for,
    Write and Unmarshal. */
module Jsonx {
  import opened Wrappers
  import JsonxOptions
  import opened JsonxNode
  import Io

  /** The text/scanner mode flags Read sets. ScanFloats includes ScanInts. */
  datatype ScanMode = ScanIdents | ScanFloats | ScanChars | ScanStrings | ScanComments

  /** The scanner mode of Read: identifiers, numbers, chars and strings,
      and comments exactly when comments are supported. */
  function ReadMode(opt: JsonxOptions.Options): (m: set<ScanMode>)
    ensures ScanComments in m <==> opt.supportComment
    ensures {ScanIdents, ScanFloats, ScanChars, ScanStrings} <= m
  {
    {ScanIdents, ScanFloats, ScanChars, ScanStrings} + (if opt.supportComment then {ScanComments} else {})
  }

  /** The parser Read hands the scanner to; the parser itself is not part
      of this model. */
  type Parse = (string, set<ScanMode>, JsonxOptions.Options) -> Result<Node, string>

  /** Read: apply the options, set the scanner mode, parse. */
  function Read(data: string, opts: seq<JsonxOptions.Option>, parse: Parse): Result<Node, string> {
    var opt := JsonxOptions.ApplyAll(opts, JsonxOptions.ZeroOptions);
    parse(data, ReadMode(opt), opt)
  }

  /** Read scans comments exactly when WithComment is among its options. */
  lemma ReadScansCommentsIff(data: string, opts: seq<JsonxOptions.Option>, parse: Parse)
    ensures exists m: set<ScanMode>, opt: JsonxOptions.Options ::
      Read(data, opts, parse) == parse(data, m, opt) &&
      (ScanComments in m <==> JsonxOptions.WithComment in opts)
  {
    var opt := JsonxOptions.ApplyAll(opts, JsonxOptions.ZeroOptions);
    JsonxOptions.ApplyAllFields(opts, JsonxOptions.ZeroOptions);
    assert Read(data, opts, parse) == parse(data, ReadMode(opt), opt);
  }

  /** The text Write produces: the node as top node, at prefix "". */
  function WriteText(node: Node, opts: seq<JsonxOptions.Option>, quote: string -> string): string {
    Render(node, "", JsonxOptions.ApplyAll(opts, JsonxOptions.ZeroOptions), quote, true, true)
  }

  /** Write */
  method Write(w: Io.Writer, node: Node, opts: seq<JsonxOptions.Option>, quote: string -> string)
    modifies w
    ensures w.text == old(w.text) + WriteText(node, opts, quote)
  {
    var opt := JsonxOptions.ApplyOptions(opts);
    Output(node, "", w, opt, quote, true, true);
  }

  /** WithPrefix has no effect on Write. */
  lemma WriteIgnoresPrefix(node: Node, opts: seq<JsonxOptions.Option>, p: string, quote: string -> string)
    ensures WriteText(node, opts + [JsonxOptions.WithPrefix(p)], quote) == WriteText(node, opts, quote)
  {
    var opt := JsonxOptions.ApplyAll(opts, JsonxOptions.ZeroOptions);
    assert (opts + [JsonxOptions.WithPrefix(p)])[..|opts|] == opts;
    assert JsonxOptions.ApplyAll(opts + [JsonxOptions.WithPrefix(p)], JsonxOptions.ZeroOptions) == opt.(prefix := p);
    PrefixOptionUnused(node, "", opt.(prefix := p), opt, quote, true, true);
  }

  /** The top node never gets a trailing comma, even with WithExtraComma:
      Write's output is the node's body and its line comment. */
  lemma WriteTopNoComma(node: Node, opts: seq<JsonxOptions.Option>, quote: string -> string)
    ensures var opt := JsonxOptions.ApplyAll(opts, JsonxOptions.ZeroOptions);
      WriteText(node, opts, quote) == Body(node, "", opt, quote) + CommentText(node, opt)
  {
  }

  /** Unmarshal: Read's error unchanged, or else what decoding the node
      gives. The reflection-based decoder is a parameter. */
  function Unmarshal(data: string, opts: seq<JsonxOptions.Option>, parse: Parse, decode: Node -> Option<string>): (err: Option<string>)
    ensures Read(data, opts, parse).Err? ==> err == Some(Read(data, opts, parse).error)
    ensures Read(data, opts, parse).Ok? ==> err == decode(Read(data, opts, parse).value)
  {
    match Read(data, opts, parse)
    case Err(e) => Some(e)
    case Ok(node) => decode(node)
  }
}
