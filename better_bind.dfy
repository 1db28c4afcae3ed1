/** The constructor-parameter validator (`assertParamsMatchConstructor`).
    Reflection is replaced by an explicit constructor schema; a failed
    PHPUnit assertion is the `Fail` outcome, carrying its message. */
module BetterBind {
  import opened PhpArrays

  /** A character that may begin a PHP name: a letter, `_` or a byte of a
      multi-byte character. */
  predicate NameStart(c: char)
  {
    'a' <= c <= 'z' || 'A' <= c <= 'Z' || c == '_' || c as int >= 0x80
  }

  /** A PHP name: a `NameStart` character followed by such characters or digits. */
  predicate IsName(s: string)
  {
    |s| > 0 && NameStart(s[0]) && forall i :: 1 <= i < |s| ==> NameStart(s[i]) || '0' <= s[i] <= '9'
  }

  /** A parameter name; PHP accepts only names as parameter names. */
  type ParamName = s: string | IsName(s) witness "_"

  /** One declared constructor parameter, in declaration order. */
  datatype Param = Param(name: ParamName, optional: bool)

  datatype FailKind = NoConstructor | RequiredMissing | ExtraParameters

  /** The first failed assertion ends validation, so there is at most one. */
  datatype Outcome = Pass | Fail(kind: FailKind, message: string)

  // ---------------------------------------------------------------------
  // Messages

  /** `part` occurs somewhere in `whole` (what the tests match with a regular expression). */
  ghost predicate Infix(part: string, whole: string)
  {
    exists i :: InfixAt(part, whole, i)
  }

  /** `part` occurs in `whole` starting at position `i`. */
  predicate InfixAt(part: string, whole: string, i: int)
  {
    0 <= i <= |whole| - |part| && whole[i..i + |part|] == part
  }

  lemma InfixLeft(a: string, b: string)
    ensures Infix(a, a + b)
  {
    assert (a + b)[0..|a|] == a;
    assert InfixAt(a, a + b, 0);
  }

  lemma InfixRight(a: string, b: string)
    ensures Infix(b, a + b)
  {
    assert (a + b)[|a|..|a| + |b|] == b;
    assert InfixAt(b, a + b, |a|);
  }

  lemma InfixTransitive(a: string, b: string, c: string)
    requires Infix(a, b) && Infix(b, c)
    ensures Infix(a, c)
  {
    var i :| InfixAt(a, b, i);
    var j :| InfixAt(b, c, j);
    forall k | 0 <= k < |a|
      ensures c[j + i + k] == a[k]
    {
      assert c[j..j + |b|][i + k] == c[j + i + k];
      assert b[i..i + |a|][k] == b[i + k];
    }
    assert c[j + i..j + i + |a|] == a;
    assert InfixAt(a, c, j + i);
  }

  /** A `{$name}` placeholder of the messages: the name between backticks. */
  function Quote(k: string): (q: string)
    ensures |q| == |k| + 2 && q[0] == '`' && q[|q| - 1] == '`'
    ensures q[1..|q| - 1] == k
    ensures Infix(k, q)
  {
    var q := "`" + k + "`";
    assert q[1..1 + |k|] == k;
    assert InfixAt(k, q, 1);
    q
  }

  /** `collect($keys)->map(quote)->implode(', ')`: empty exactly when there
      are no keys, and naming every key between backticks. */
  function QuotedList(keys: seq<string>): (s: string)
    ensures s == [] <==> keys == []
    ensures forall i :: 0 <= i < |keys| ==> Infix(Quote(keys[i]), s)
  {
    if keys == [] then ""
    else if |keys| == 1 then
      assert InfixAt(Quote(keys[0]), Quote(keys[0]), 0);
      Quote(keys[0])
    else
      var head, rest := Quote(keys[0]), QuotedList(keys[1..]);
      var s := head + ", " + rest;
      InfixLeft(head, ", ");
      InfixLeft(head + ", ", rest);
      InfixTransitive(head, head + ", ", s);
      InfixRight(head + ", ", rest);
      forall i | 1 <= i < |keys|
        ensures Infix(Quote(keys[i]), rest)
      {
        assert keys[1..][i - 1] == keys[i];
      }
      InfixTransitiveAll(keys, rest, s);
      s
  }

  /** Every quoted key inside `b` is also inside `c` when `b` is inside `c`. */
  lemma InfixTransitiveAll(keys: seq<string>, b: string, c: string)
    requires Infix(b, c)
    requires forall i :: 1 <= i < |keys| ==> Infix(Quote(keys[i]), b)
    ensures forall i :: 1 <= i < |keys| ==> Infix(Quote(keys[i]), c)
  {
    forall i | 1 <= i < |keys|
      ensures Infix(Quote(keys[i]), c)
    {
      InfixTransitive(Quote(keys[i]), b, c);
    }
  }

  /** The message of line 35: it names the class and says "no constructor". */
  function NoConstructorMessage(className: string): (m: string)
    ensures Infix(className, m)
    ensures Infix("no constructor", m)
  {
    var p1, cls := "Parameters provided to class with no constructor: ", Quote(className);
    var m := p1 + cls;
    InfixRight(p1, cls);
    InfixTransitive(className, cls, m);
    assert InfixAt("no constructor", p1, 34);
    InfixLeft(p1, cls);
    InfixTransitive("no constructor", p1, m);
    m
  }

  /** The message of line 41: it says "Required parameter" and names the
      parameter, between backticks, and the class. */
  function RequiredMessage(name: string, className: string): (m: string)
    ensures Infix(className, m)
    ensures Infix("Required parameter", m)
    ensures Infix(Quote(name), m)
  {
    var cls := Quote(className);
    var r1 := "Required parameter " + Quote(name);
    var r2 := r1 + " not provided to class constructor for ";
    var m := r2 + cls;
    InfixRight(r2, cls);
    InfixTransitive(className, cls, m);
    InfixLeft(r2, cls);
    InfixLeft(r1, " not provided to class constructor for ");
    InfixTransitive(r1, r2, m);
    InfixRight("Required parameter ", Quote(name));
    InfixTransitive(Quote(name), r1, m);
    assert InfixAt("Required parameter", r1, 0);
    InfixTransitive("Required parameter", r1, m);
    m
  }

  /** The message of line 51: it names the class and every extra key,
      between backticks. */
  function ExtraMessage(className: string, extras: seq<string>): (m: string)
    ensures Infix(className, m)
    ensures forall i :: 0 <= i < |extras| ==> Infix(Quote(extras[i]), m)
  {
    var cls := Quote(className);
    var e1 := "Extra parameters provided to class constructor for " + cls;
    var e2 := e1 + ": ";
    var m := e2 + QuotedList(extras);
    InfixRight("Extra parameters provided to class constructor for ", cls);
    InfixLeft(e1, ": ");
    InfixLeft(e2, QuotedList(extras));
    InfixTransitive(cls, e1, e2);
    InfixTransitive(cls, e2, m);
    InfixTransitive(className, cls, m);
    InfixRight(e2, QuotedList(extras));
    ExtraKeysInMessage(extras, QuotedList(extras), m);
    m
  }

  lemma ExtraKeysInMessage(extras: seq<string>, list: string, m: string)
    requires Infix(list, m)
    requires forall i :: 0 <= i < |extras| ==> Infix(Quote(extras[i]), list)
    ensures forall i :: 0 <= i < |extras| ==> Infix(Quote(extras[i]), m)
  {
    forall i | 0 <= i < |extras|
      ensures Infix(Quote(extras[i]), m)
    {
      InfixTransitive(Quote(extras[i]), list, m);
    }
  }

  // ---------------------------------------------------------------------
  // The validation, as a function of its inputs

  /** PHP 7's loose `$name == $v` for a parameter name. A name is neither
      empty, nor "0", nor a numeric string. So it is truthy, it converts to
      the integer 0, and it compares with another string character by
      character. An array never equals a string. `null` converts to the
      empty string, which no name equals. */
  predicate LooseEqualsName(name: ParamName, v: Value)
  {
    match v
    case Bool(b) => b
    case Int(i) => i == 0
    case Str(s) => s == name
    case _ => false
  }

  /** `in_array($name, $ignore_params)`, whose comparison is PHP's loose `==`.
      A list of strings ignores exactly the names it holds. Beyond that,
      `true` or the integer 0 anywhere in the list ignores every parameter. */
  predicate Ignored(name: ParamName, ignore: seq<Value>): (b: bool)
    ensures Str(name) in ignore ==> b
    ensures (forall v :: v in ignore ==> v.Str?) ==> (b <==> Str(name) in ignore)
    ensures Bool(true) in ignore || Int(0) in ignore ==> b
    ensures (forall v :: v in ignore ==> v == Null || v == Bool(false) || v.List?) ==> !b
  {
    exists v :: v in ignore && LooseEqualsName(name, v)
  }

  /** A parameter the walk insists on: neither optional nor ignored. */
  predicate MustBeProvided(p: Param, ignore: seq<Value>)
  {
    !p.optional && !Ignored(p.name, ignore)
  }

  /** The last assertion: no parameter may be left over after the walk. */
  function ExtraCheck(className: string, rest: Params): (r: Outcome)
    ensures r == Pass <==> rest == []
    ensures r.Fail? ==> r.kind == ExtraParameters && Infix(className, r.message)
    ensures r.Fail? ==> forall i :: 0 <= i < |rest| ==> Infix(Quote(rest[i].0), r.message)
  {
    if |rest| == 0 then Pass
    else Fail(ExtraParameters, ExtraMessage(className, Keys(rest)))
  }

  /** The walk over the declared parameters, `work` being the working copy. */
  function Walk(className: string, ps: seq<Param>, work: Params, ignore: seq<Value>): (r: Outcome)
    ensures r.Fail? ==> r.kind != NoConstructor && Infix(className, r.message)
    ensures r.Fail? && r.kind == RequiredMissing ==>
      exists p :: p in ps && MustBeProvided(p, ignore) && r.message == RequiredMessage(p.name, className)
    decreases |ps|
  {
    if ps == [] then ExtraCheck(className, work)
    else if MustBeProvided(ps[0], ignore) && !IsSet(work, ps[0].name) then
      Fail(RequiredMissing, RequiredMessage(ps[0].name, className))
    else Walk(className, ps[1..], Unset(work, ps[0].name), ignore)
  }

  /** The outcome of validating `params` against the constructor `ctor`
      (`None`: the class has no constructor). */
  function Validate(className: string, ctor: Option<seq<Param>>, params: Params, ignore: seq<Value>): (r: Outcome)
    ensures (r.Fail? && r.kind == NoConstructor) <==> ctor.None? && params != []
    ensures ctor.None? ==> (r == Pass <==> params == [])
    ensures r.Fail? ==> Infix(className, r.message)
    ensures r.Fail? && r.kind == NoConstructor ==> Infix("no constructor", r.message)
  {
    match ctor
    case None =>
      if |params| == 0 then Pass else Fail(NoConstructor, NoConstructorMessage(className))
    case Some(ps) => Walk(className, ps, params, ignore)
  }

  // ---------------------------------------------------------------------
  // The validator as the source runs it

  /** Walks the constructor's parameters in declaration order over a working
      copy of `params`, failing on the first missing required parameter and
      unsetting each declared name; what is left over is reported as extra. */
  method AssertParamsMatchConstructor(className: string, ctor: Option<seq<Param>>, params: Params, ignoreParams: seq<Value>)
    returns (r: Outcome)
    ensures r == Validate(className, ctor, params, ignoreParams)
  {
    if ctor.None? {
      if |params| != 0 {
        return Fail(NoConstructor, NoConstructorMessage(className));
      }
      return Pass;
    }
    var ps := ctor.value;
    var work := params;
    var i := 0;
    while i < |ps|
      invariant 0 <= i <= |ps|
      invariant Walk(className, ps[i..], work, ignoreParams) == Validate(className, ctor, params, ignoreParams)
    {
      var name := ps[i].name;
      assert ps[i..][0] == ps[i] && ps[i..][1..] == ps[i + 1..];
      if MustBeProvided(ps[i], ignoreParams) && !IsSet(work, name) {
        return Fail(RequiredMissing, RequiredMessage(name, className));
      }
      work := Unset(work, name);
      i := i + 1;
    }
    assert ps[i..] == [];
    if |work| != 0 {
      return Fail(ExtraParameters, ExtraMessage(className, Keys(work)));
    }
    r := Pass;
  }

  // ---------------------------------------------------------------------
  // What the validation means

  /** The names a constructor declares. */
  function Names(ps: seq<Param>): set<string>
  {
    set p | p in ps :: p.name
  }

  /** PHP does not allow two parameters of one function to share a name. */
  predicate DistinctNames(ps: seq<Param>)
  {
    forall i, j :: 0 <= i < j < |ps| ==> ps[i].name != ps[j].name
  }

  /** A parameter the supplied map fails to provide. */
  predicate Missing(p: Param, params: Params, ignore: seq<Value>)
  {
    MustBeProvided(p, ignore) && !IsSet(params, p.name)
  }

  /** The position of the first declared parameter that `params` fails to
      provide, or `|ps|` when there is none. */
  function FirstMissing(ps: seq<Param>, params: Params, ignore: seq<Value>): (k: nat)
    ensures k <= |ps|
    ensures k < |ps| ==> Missing(ps[k], params, ignore)
    ensures forall j :: 0 <= j < k ==> !Missing(ps[j], params, ignore)
  {
    if ps == [] then 0
    else if Missing(ps[0], params, ignore) then 0
    else 1 + FirstMissing(ps[1..], params, ignore)
  }

  /** Unsetting a name no parameter of `ps` carries does not move the first
      missing parameter. */
  lemma {:induction false} FirstMissingAfterUnset(ps: seq<Param>, params: Params, ignore: seq<Value>, n: string)
    requires n !in Names(ps)
    ensures FirstMissing(ps, Unset(params, n), ignore) == FirstMissing(ps, params, ignore)
  {
    if ps != [] {
      assert ps[0] in ps;
      UnsetLookup(params, n, ps[0].name);
      assert Names(ps[1..]) <= Names(ps) by {
        forall q | q in ps[1..] ensures q in ps { }
      }
      FirstMissingAfterUnset(ps[1..], params, ignore, n);
    }
  }

  lemma NamesSplit(ps: seq<Param>)
    requires ps != []
    ensures Names(ps) == {ps[0].name} + Names(ps[1..])
  {
    assert ps == [ps[0]] + ps[1..];
  }

  lemma DistinctTail(ps: seq<Param>)
    requires ps != [] && DistinctNames(ps)
    ensures DistinctNames(ps[1..]) && ps[0].name !in Names(ps[1..])
  {
    forall q | q in ps[1..] ensures q.name != ps[0].name {
      var j :| 0 <= j < |ps[1..]| && ps[1..][j] == q;
      assert q == ps[j + 1];
    }
  }

  /** A first parameter that is provided is unset, and the walk goes on. */
  lemma ValidateStep(className: string, ps: seq<Param>, params: Params, ignore: seq<Value>)
    requires ps != [] && !Missing(ps[0], params, ignore)
    ensures Validate(className, Some(ps), params, ignore) ==
      Validate(className, Some(ps[1..]), Unset(params, ps[0].name), ignore)
  {
  }

  /** The validator judged against the supplied map itself rather than the
      working copy: it reports the first declared parameter (in declaration
      order) that is required, not ignored and not set; when there is none,
      the result depends only on the supplied keys no parameter declares. */
  lemma {:induction false} ValidateWithConstructor(className: string, ps: seq<Param>, params: Params, ignore: seq<Value>)
    requires DistinctNames(ps)
    ensures var k := FirstMissing(ps, params, ignore);
      Validate(className, Some(ps), params, ignore) ==
        if k < |ps| then Fail(RequiredMissing, RequiredMessage(ps[k].name, className))
        else ExtraCheck(className, Without(params, Names(ps)))
  {
    if ps == [] {
      assert Names(ps) == {};
      WithoutAbsent(params, {});
    } else if !Missing(ps[0], params, ignore) {
      var p, rest := ps[0], ps[1..];
      var work := Unset(params, p.name);
      DistinctTail(ps);
      ValidateWithConstructor(className, rest, work, ignore);
      FirstMissingAfterUnset(rest, params, ignore, p.name);
      NamesSplit(ps);
      UnsetThenWithout(params, p.name, Names(rest));
      ValidateStep(className, ps, params, ignore);
    }
  }

  /** The required-parameter failure happens exactly when some declared
      parameter is required, not ignored and not set in the supplied map. */
  lemma RequiredFailureIffMissing(className: string, ps: seq<Param>, params: Params, ignore: seq<Value>)
    requires DistinctNames(ps)
    ensures var r := Validate(className, Some(ps), params, ignore);
      (r.Fail? && r.kind == RequiredMissing) <==> exists i :: 0 <= i < |ps| && Missing(ps[i], params, ignore)
    ensures var r := Validate(className, Some(ps), params, ignore);
      r.Fail? && r.kind == RequiredMissing ==>
        exists i :: 0 <= i < |ps| && Missing(ps[i], params, ignore) && r.message == RequiredMessage(ps[i].name, className)
  {
    ValidateWithConstructor(className, ps, params, ignore);
  }

  /** Optional and ignored parameters never cause a required-parameter
      failure: when every declared parameter is one or the other, only the
      leftover keys decide. */
  lemma {:induction false} OptionalAndIgnoredNeverRequired(className: string, ps: seq<Param>, params: Params, ignore: seq<Value>)
    requires forall i :: 0 <= i < |ps| ==> ps[i].optional || Ignored(ps[i].name, ignore)
    ensures Validate(className, Some(ps), params, ignore) == ExtraCheck(className, Without(params, Names(ps)))
  {
    if ps == [] {
      assert Names(ps) == {};
      WithoutAbsent(params, {});
    } else {
      var p, rest := ps[0], ps[1..];
      assert forall i :: 0 <= i < |rest| ==> rest[i] == ps[i + 1];
      OptionalAndIgnoredNeverRequired(className, rest, Unset(params, p.name), ignore);
      assert Names(ps) == {p.name} + Names(rest) by {
        assert ps == [p] + rest;
      }
      UnsetThenWithout(params, p.name, Names(rest));
    }
  }

  /** Because `in_array` compares loosely, `true` or the integer 0 in the
      ignore list exempts every parameter from the required check, so only
      the leftover keys decide. */
  lemma LooseIgnoreExemptsAll(className: string, ps: seq<Param>, params: Params, ignore: seq<Value>)
    requires Bool(true) in ignore || Int(0) in ignore
    ensures Validate(className, Some(ps), params, ignore) == ExtraCheck(className, Without(params, Names(ps)))
  {
    OptionalAndIgnoredNeverRequired(className, ps, params, ignore);
  }

  /** Validation passes exactly when no required parameter is missing and
      every supplied key is a declared name. */
  lemma PassIffComplete(className: string, ps: seq<Param>, params: Params, ignore: seq<Value>)
    requires DistinctNames(ps)
    ensures Validate(className, Some(ps), params, ignore) == Pass <==>
      (forall i :: 0 <= i < |ps| ==> !Missing(ps[i], params, ignore)) &&
      (forall k :: k in Keys(params) ==> k in Names(ps))
  {
    ValidateWithConstructor(className, ps, params, ignore);
    var rest := Without(params, Names(ps));
    WithoutKeys(params, Names(ps));
    if rest != [] {
      assert Keys(rest)[0] in Keys(rest);
    }
  }

  /** An extra-parameter failure names the class and every supplied key
      that no parameter declares. */
  lemma ExtraFailureNamesLeftovers(className: string, ps: seq<Param>, params: Params, ignore: seq<Value>)
    requires DistinctNames(ps)
    ensures var r := Validate(className, Some(ps), params, ignore);
      r.Fail? && r.kind == ExtraParameters ==>
        Infix(className, r.message) &&
        forall k :: k in Keys(params) && k !in Names(ps) ==> Infix(Quote(k), r.message)
  {
    var r := Validate(className, Some(ps), params, ignore);
    if r.Fail? && r.kind == ExtraParameters {
      var rest := Without(params, Names(ps));
      ValidateWithConstructor(className, ps, params, ignore);
      assert r == ExtraCheck(className, rest);
      WithoutKeys(params, Names(ps));
      ExtraCheckNamesEveryKey(className, rest);
    }
  }

  lemma ExtraCheckNamesEveryKey(className: string, rest: Params)
    requires rest != []
    ensures forall k :: k in Keys(rest) ==> Infix(Quote(k), ExtraCheck(className, rest).message)
  {
    forall k | k in Keys(rest)
      ensures Infix(Quote(k), ExtraCheck(className, rest).message)
    {
      var i :| 0 <= i < |Keys(rest)| && Keys(rest)[i] == k;
      assert rest[i].0 == k;
    }
  }

  /** The ignore list is not consulted by the extra-parameter check: an
      ignored name that the constructor does not declare still fails. */
  lemma IgnoredNameStillExtra(className: string, ps: seq<Param>, params: Params, ignore: seq<Value>, k: string)
    requires DistinctNames(ps)
    requires Str(k) in ignore && k in Keys(params) && k !in Names(ps)
    ensures Validate(className, Some(ps), params, ignore).Fail?
  {
    PassIffComplete(className, ps, params, ignore);
  }
}
