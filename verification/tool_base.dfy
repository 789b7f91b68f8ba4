/** Tool results and tool parameter dictionaries
    (computer-use-demo/computer_use_demo/tools/base.py).

    A `ToolResult` is a frozen record of four optional strings.  Python's
    truthiness decides how two results combine: `None` and `""` are both
    falsy, so "a field is set" always means "present and non-empty". */
module ToolBase {
  import opened Wrappers

  // ---------------------------------------------------------------------------
  // Parameter dictionaries
  // ---------------------------------------------------------------------------

  /** The values a tool parameter dictionary holds. */
  datatype ParamValue =
    | PStr(s: string)
    | PInt(i: int)
    | PNone
    | PCacheControl(cacheType: string)   // {"type": cacheType}

  /** A Python dict as its entries in insertion order. */
  type Dict = seq<(string, ParamValue)>

  predicate DistinctKeys(d: Dict)
  {
    forall i, j | 0 <= i < j < |d| :: d[i].0 != d[j].0
  }

  function Lookup(d: Dict, k: string): Option<ParamValue>
  {
    if d == [] then None
    else if d[0].0 == k then Some(d[0].1)
    else Lookup(d[1..], k)
  }

  lemma {:induction false} LookupFound(d: Dict, k: string)
    ensures Lookup(d, k).Some? <==> exists i | 0 <= i < |d| :: d[i].0 == k
  {
    if d != [] {
      LookupFound(d[1..], k);
      if d[0].0 != k && Lookup(d, k).Some? {
        var i :| 0 <= i < |d[1..]| && d[1..][i].0 == k;
        assert d[i + 1].0 == k;
      }
      if (exists i | 0 <= i < |d| :: d[i].0 == k) && d[0].0 != k {
        var i :| 0 <= i < |d| && d[i].0 == k;
        assert d[1..][i - 1].0 == k;
      }
    }
  }

  /** `d[k] = v`: an existing key keeps its position, a new key goes last. */
  function Put(d: Dict, k: string, v: ParamValue): (r: Dict)
    ensures Lookup(r, k) == Some(v)
    ensures forall k' :: k' != k ==> Lookup(r, k') == Lookup(d, k')
    ensures |r| == if Lookup(d, k).Some? then |d| else |d| + 1
    ensures forall i | 0 <= i < |d| :: r[i].0 == d[i].0
    ensures Lookup(d, k).None? ==> r[|d|] == (k, v)
  {
    if d == [] then [(k, v)]
    else if d[0].0 == k then [(k, v)] + d[1..]
    else [d[0]] + Put(d[1..], k, v)
  }

  lemma PutKeepsDistinct(d: Dict, k: string, v: ParamValue)
    requires DistinctKeys(d)
    ensures DistinctKeys(Put(d, k, v))
  {
    var r := Put(d, k, v);
    if Lookup(d, k).None? {
      LookupFound(d, k);
      forall i, j | 0 <= i < j < |r|
        ensures r[i].0 != r[j].0
      {
        if j == |d| {
          assert r[i].0 == d[i].0;
        }
      }
    }
  }

  /** `{**d, **e}`: the entries of `e` are put into `d` one by one. */
  function Merge(d: Dict, e: Dict): Dict
    decreases |e|
  {
    if e == [] then d else Merge(Put(d, e[0].0, e[0].1), e[1..])
  }

  /** A key of `e` takes `e`'s value; any other key keeps `d`'s. */
  lemma {:induction false} MergeLookup(d: Dict, e: Dict, k: string)
    requires DistinctKeys(e)
    ensures Lookup(Merge(d, e), k) == if Lookup(e, k).Some? then Lookup(e, k) else Lookup(d, k)
    decreases |e|
  {
    if e != [] {
      assert DistinctKeys(e[1..]) by {
        forall i, j | 0 <= i < j < |e[1..]| ensures e[1..][i].0 != e[1..][j].0 {
          assert e[1..][i] == e[i + 1] && e[1..][j] == e[j + 1];
        }
      }
      MergeLookup(Put(d, e[0].0, e[0].1), e[1..], k);
      if e[0].0 == k {
        LookupFound(e[1..], k);
        forall i | 0 <= i < |e[1..]|
          ensures e[1..][i].0 != k
        {
          assert e[1..][i] == e[i + 1];
        }
      }
    }
  }

  lemma {:induction false} MergeKeepsDistinct(d: Dict, e: Dict)
    requires DistinctKeys(d)
    ensures DistinctKeys(Merge(d, e))
    decreases |e|
  {
    if e != [] {
      PutKeepsDistinct(d, e[0].0, e[0].1);
      MergeKeepsDistinct(Put(d, e[0].0, e[0].1), e[1..]);
    }
  }

  /** `BaseAnthropicTool.to_params`: `name` and `type`, then the options'
      entries; a tool without options (or with an empty one) yields exactly
      the two. */
  function ToParams(name: string, apiType: string, options: Option<Dict>): (r: Dict)
    ensures options.None? || options == Some([]) ==> r == [("name", PStr(name)), ("type", PStr(apiType))]
  {
    var base := [("name", PStr(name)), ("type", PStr(apiType))];
    match options
    case None => base
    case Some(o) => Merge(base, o)
  }

  /** Every key of the result answers with the option's value when the
      options define it, and otherwise with the tool's own name or type. */
  lemma ToParamsLookup(name: string, apiType: string, options: Dict, k: string)
    requires DistinctKeys(options)
    ensures var r := ToParams(name, apiType, Some(options));
      && DistinctKeys(r)
      && (Lookup(options, k).Some? ==> Lookup(r, k) == Lookup(options, k))
      && (Lookup(options, k).None? && k == "name" ==> Lookup(r, k) == Some(PStr(name)))
      && (Lookup(options, k).None? && k == "type" ==> Lookup(r, k) == Some(PStr(apiType)))
      && (Lookup(options, k).None? && k != "name" && k != "type" ==> Lookup(r, k).None?)
  {
    var base := [("name", PStr(name)), ("type", PStr(apiType))];
    assert base[1..] == [("type", PStr(apiType))] && base[1..][1..] == [];
    if k != "name" && k != "type" {
      assert Lookup(base, k) == Lookup(base[1..], k) == Lookup(base[1..][1..], k) == None;
    }
    MergeLookup(base, options, k);
    MergeKeepsDistinct(base, options);
  }

  // ---------------------------------------------------------------------------
  // Tool results
  // ---------------------------------------------------------------------------

  /** Which class the result is: `ToolResult`, `CLIResult` or `ToolFailure`. */
  datatype ResultKind = PlainResult | CLIResult | ToolFailure

  datatype ToolResult = ToolResult(
    output: Option<string>,
    error: Option<string>,
    base64Image: Option<string>,
    system: Option<string>,
    kind: ResultKind)

  /** A `ToolFailure(error=...)`. */
  function FailureOf(message: string): ToolResult
  {
    ToolResult(None, Some(message), None, None, ToolFailure)
  }

  /** Python truthiness of an optional string. */
  predicate Truthy(o: Option<string>)
  {
    o.Some? && o.value != ""
  }

  /** The text an optional string contributes when printed or concatenated. */
  function TextOf(o: Option<string>): string
  {
    if o.Some? then o.value else ""
  }

  function Fields(r: ToolResult): seq<Option<string>>
  {
    [r.output, r.error, r.base64Image, r.system]
  }

  /** `ToolResult.__bool__`: true iff some field is set. */
  function IsTruthy(r: ToolResult): (b: bool)
    ensures b <==> exists i | 0 <= i < |Fields(r)| :: Truthy(Fields(r)[i])
  {
    assert Fields(r)[0] == r.output && Fields(r)[1] == r.error;
    assert Fields(r)[2] == r.base64Image && Fields(r)[3] == r.system;
    Truthy(r.output) || Truthy(r.error) || Truthy(r.base64Image) || Truthy(r.system)
  }

  const CombineError: string := "Cannot combine tool results"

  /** `combine_fields`: two set fields are concatenated, or refused when
      concatenation is off; otherwise `field or other_field`. */
  function CombineFields(a: Option<string>, b: Option<string>, concatenate: bool): (r: Result<Option<string>, string>)
    ensures r.Failure? <==> !concatenate && Truthy(a) && Truthy(b)
    ensures r.Failure? ==> r.error == CombineError
    ensures r.Success? ==> TextOf(r.value) == TextOf(a) + TextOf(b)
    ensures r.Success? ==> (Truthy(r.value) <==> Truthy(a) || Truthy(b))
    ensures !Truthy(a) ==> r == Success(b)
    ensures Truthy(a) && !Truthy(b) ==> r == Success(a)
  {
    if Truthy(a) && Truthy(b) then
      if concatenate then Success(Some(a.value + b.value)) else Failure(CombineError)
    else if Truthy(a) then Success(a)
    else Success(b)
  }

  /** `ToolResult.__add__`: output, error and system concatenate; two
      images cannot be combined.  The sum is always a plain `ToolResult`. */
  function Add(x: ToolResult, y: ToolResult): (r: Result<ToolResult, string>)
    ensures r.Failure? <==> Truthy(x.base64Image) && Truthy(y.base64Image)
    ensures r.Failure? ==> r.error == CombineError
    ensures r.Success? ==>
      && r.value.kind == PlainResult
      && TextOf(r.value.output) == TextOf(x.output) + TextOf(y.output)
      && TextOf(r.value.error) == TextOf(x.error) + TextOf(y.error)
      && TextOf(r.value.system) == TextOf(x.system) + TextOf(y.system)
      && r.value.base64Image == (if Truthy(x.base64Image) then x.base64Image else y.base64Image)
  {
    var output := CombineFields(x.output, y.output, true);
    var error := CombineFields(x.error, y.error, true);
    var image := CombineFields(x.base64Image, y.base64Image, false);
    var system := CombineFields(x.system, y.system, true);
    if image.Failure? then Failure(image.error)
    else Success(ToolResult(output.value, error.value, image.value, system.value, PlainResult))
  }

  /** A sum is truthy iff one of its summands is. */
  lemma AddTruthy(x: ToolResult, y: ToolResult)
    requires Add(x, y).Success?
    ensures IsTruthy(Add(x, y).value) <==> IsTruthy(x) || IsTruthy(y)
  {
    var r := Add(x, y).value;
    assert Truthy(r.output) <==> Truthy(x.output) || Truthy(y.output);
    assert Truthy(r.error) <==> Truthy(x.error) || Truthy(y.error);
    assert Truthy(r.system) <==> Truthy(x.system) || Truthy(y.system);
  }

  /** Adding onto the empty result gives the other result back, as a plain
      `ToolResult`. */
  lemma AddEmptyLeft(y: ToolResult)
    ensures Add(ToolResult(None, None, None, None, PlainResult), y) == Success(y.(kind := PlainResult))
  {
  }

  function AddThen(r: Result<ToolResult, string>, z: ToolResult): Result<ToolResult, string>
  {
    if r.Failure? then r else Add(r.value, z)
  }

  function AddTo(x: ToolResult, r: Result<ToolResult, string>): Result<ToolResult, string>
  {
    if r.Failure? then r else Add(x, r.value)
  }

  /** Combining is associative, failure included: three results fail to
      combine iff two of them carry an image. */
  lemma CombineAssociative(a: Option<string>, b: Option<string>, c: Option<string>, concatenate: bool)
    requires CombineFields(a, b, concatenate).Success? && CombineFields(b, c, concatenate).Success?
    requires CombineFields(CombineFields(a, b, concatenate).value, c, concatenate).Success?
    ensures CombineFields(a, CombineFields(b, c, concatenate).value, concatenate)
         == CombineFields(CombineFields(a, b, concatenate).value, c, concatenate)
  {
    if Truthy(a) && Truthy(b) && Truthy(c) {
      assert a.value + b.value + c.value == a.value + (b.value + c.value);
    }
  }

  lemma AddAssociative(x: ToolResult, y: ToolResult, z: ToolResult)
    ensures AddThen(Add(x, y), z) == AddTo(x, Add(y, z))
    ensures AddThen(Add(x, y), z).Failure? <==>
      (Truthy(x.base64Image) && Truthy(y.base64Image)) ||
      (Truthy(y.base64Image) && Truthy(z.base64Image)) ||
      (Truthy(x.base64Image) && Truthy(z.base64Image))
  {
    if Add(x, y).Success? && Add(y, z).Success? && AddThen(Add(x, y), z).Success? {
      CombineAssociative(x.output, y.output, z.output, true);
      CombineAssociative(x.error, y.error, z.error, true);
      CombineAssociative(x.base64Image, y.base64Image, z.base64Image, false);
      CombineAssociative(x.system, y.system, z.system, true);
    }
  }

  /** One field of a `replace` call: left alone, or given a new value. */
  datatype Update = Keep | SetTo(value: Option<string>)

  function Apply(u: Update, current: Option<string>): Option<string>
  {
    if u.Keep? then current else u.value
  }

  /** `ToolResult.replace`: a copy of the same class in which only the
      named fields differ. */
  function Replace(x: ToolResult, output: Update, error: Update, base64Image: Update, system: Update): (r: ToolResult)
    ensures r.kind == x.kind
    ensures forall i | 0 <= i < 4 ::
      Fields(r)[i] == Apply([output, error, base64Image, system][i], Fields(x)[i])
  {
    ToolResult(Apply(output, x.output), Apply(error, x.error),
               Apply(base64Image, x.base64Image), Apply(system, x.system), x.kind)
  }
}
