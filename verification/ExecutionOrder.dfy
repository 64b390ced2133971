/** The execution-order annotation: how a list of PipelineRuns is printed, and how the
    queue parses it back. */
module ExecutionOrder {
  import opened Wrappers
  import opened Strings

  datatype RunName = RunName(namespace: string, name: string)

  function PrKey(r: RunName): string {
    r.namespace + "/" + r.name
  }

  // ---------- parsing ----------

  /** A segment that the Kubernetes client does not refuse to encode in a path. */
  predicate IsValidPathSegment(s: string) {
    s != "." && s != ".." && '/' !in s && '%' !in s
  }

  /** Both parts are trimmed; keys that are not of the form "namespace/name" are refused. */
  function SplitPrKey(key: string): Option<RunName> {
    match Cut(TrimSpace(key), '/')
    case None => None
    case Some((before, after)) =>
      var namespace, name := TrimSpace(before), TrimSpace(after);
      if namespace == "" || name == "" || '/' in name then None
      else if !IsValidPathSegment(namespace) || !IsValidPathSegment(name) then None
      else Some(RunName(namespace, name))
  }

  /** The keys of a list that parse; the others are skipped. */
  function Accepted(keys: seq<string>): seq<RunName> {
    if keys == [] then []
    else
      match SplitPrKey(keys[0])
      case None => Accepted(keys[1..])
      case Some(r) => [r] + Accepted(keys[1..])
  }

  // ---------- printing ----------

  function PrKeys(runs: seq<RunName>): seq<string> {
    seq(|runs|, i requires 0 <= i < |runs| => PrKey(runs[i]))
  }

  method GetOrderByName(runs: seq<RunName>) returns (order: string)
    ensures order == Join(PrKeys(runs), ',')
  {
    order := "";
    var i := 0;
    while i < |runs|
      invariant 0 <= i <= |runs|
      invariant order == Join(PrKeys(runs[..i]), ',') && (order == "" <==> i == 0)
    {
      assert PrKeys(runs[..i + 1])[..i] == PrKeys(runs[..i]);
      if order == "" {
        order := PrKey(runs[i]);
      } else {
        order := order + "," + PrKey(runs[i]);
      }
      i := i + 1;
    }
    assert runs[..i] == runs;
  }

  // ---------- round trips ----------

  /** A name or namespace that survives printing and parsing: not empty, without space at its
      ends, without a slash or a percent sign, and neither of the two dot names. */
  predicate IsPlain(s: string) {
    s != "" && IsTrimmed(s) && s != "." && s != ".." && forall c :: c in s ==> c != '/' && c != '%'
  }

  /** Whatever is accepted is made of two plain parts. */
  lemma AcceptedIsPlain(key: string)
    requires SplitPrKey(key).Some?
    ensures IsPlain(SplitPrKey(key).value.namespace) && IsPlain(SplitPrKey(key).value.name)
  {
    var (before, after) := Cut(TrimSpace(key), '/').value;
    TrimSpaceResult(before);
    TrimSpaceResult(after);
  }

  /** A printed key parses back to its run if and only if both parts are plain. */
  lemma KeyRoundTrip(r: RunName)
    ensures SplitPrKey(PrKey(r)) == Some(r) <==> IsPlain(r.namespace) && IsPlain(r.name)
  {
    if IsPlain(r.namespace) && IsPlain(r.name) {
      var key := PrKey(r);
      assert key[0] == r.namespace[0] && key[|key| - 1] == r.name[|r.name| - 1];
      TrimSpaceResult(key);
      TrimSpaceResult(r.namespace);
      TrimSpaceResult(r.name);
      assert key == r.namespace + ['/'] + r.name;
      CutOfPair(r.namespace, r.name, '/');
    } else if SplitPrKey(PrKey(r)) == Some(r) {
      AcceptedIsPlain(PrKey(r));
    }
  }

  lemma PaddedPartsParse(r: RunName, b: string, c: string, key: string)
    requires IsPlain(r.namespace) && IsPlain(r.name) && AllSpace(b) && AllSpace(c)
    requires TrimSpace(key) == (r.namespace + b) + ['/'] + (c + r.name)
    ensures SplitPrKey(key) == Some(r)
  {
    CutOfPair(r.namespace + b, c + r.name, '/');
    assert "" + r.namespace + b == r.namespace + b && c + r.name + "" == c + r.name;
    TrimOf("", r.namespace, b);
    TrimOf(c, r.name, "");
  }

  /** White space around a key and around its parts does not matter. */
  lemma PaddedKeyParses(r: RunName, a: string, b: string, c: string, d: string)
    requires IsPlain(r.namespace) && IsPlain(r.name)
    requires AllSpace(a) && AllSpace(b) && AllSpace(c) && AllSpace(d)
    ensures SplitPrKey(a + r.namespace + b + "/" + c + r.name + d) == Some(r)
  {
    var key := (r.namespace + b) + ['/'] + (c + r.name);
    assert a + r.namespace + b + "/" + c + r.name + d == a + key + d;
    assert key[0] == r.namespace[0] && key[|key| - 1] == r.name[|r.name| - 1];
    TrimOf(a, key, d);
    PaddedPartsParse(r, b, c, a + key + d);
  }

  /** Printing an accepted key again and parsing it gives the same run. */
  lemma ReprintIsStable(key: string)
    requires SplitPrKey(key).Some?
    ensures SplitPrKey(PrKey(SplitPrKey(key).value)) == SplitPrKey(key)
  {
    AcceptedIsPlain(key);
    KeyRoundTrip(SplitPrKey(key).value);
  }

  ghost predicate Printable(r: RunName) {
    IsPlain(r.namespace) && IsPlain(r.name) && ',' !in r.namespace && ',' !in r.name
  }

  lemma {:induction false} AcceptedKeys(runs: seq<RunName>)
    requires forall r :: r in runs ==> Printable(r)
    ensures Accepted(PrKeys(runs)) == runs
  {
    if runs != [] {
      assert runs[0] in runs && runs == [runs[0]] + runs[1..];
      KeyRoundTrip(runs[0]);
      assert PrKeys(runs)[1..] == PrKeys(runs[1..]);
      AcceptedKeys(runs[1..]);
    }
  }

  /** The printed list, split at the commas and parsed, gives exactly the runs in their
      order; the empty list too, whose text splits into one refused key. */
  lemma OrderRoundTrip(runs: seq<RunName>)
    requires forall r :: r in runs ==> Printable(r)
    ensures Accepted(Split(Join(PrKeys(runs), ','), ',')) == runs
  {
    if runs == [] {
      assert Accepted([""][1..]) == [];
    } else {
      forall key | key in PrKeys(runs) ensures ',' !in key {
        var i :| 0 <= i < |runs| && key == PrKey(runs[i]);
        assert runs[i] in runs;
      }
      SplitJoin(PrKeys(runs), ',');
      AcceptedKeys(runs);
    }
  }
}
