/**
 JSON values and the string helpers of the request normaliser
 (src/cyrene_exchange/protocol.py). `Bytes` does not occur in a JSON body; it
 is what a decoded media part holds.
 */
module Values {

  type Byte = b: int | 0 <= b < 256

  /** `List` stands for lists and tuples, `Dict` for every mapping. */
  datatype Value =
    | Null
    | Bool(b: bool)
    | Int(n: int)
    | Float(x: real)
    | Str(s: string)
    | Bytes(data: seq<Byte>)
    | List(items: seq<Value>)
    | Dict(fields: Fields)

  type Fields = map<string, Value>

  /** `mapping.get(key)`. */
  function Get(fields: Fields, key: string): Value {
    if key in fields then fields[key] else Null
  }

  /** Python refuses to look up a list or mapping in a set. */
  predicate Hashable(v: Value) {
    !v.List? && !v.Dict?
  }

  /** Why a step failed; the last two are the failures of media resolution. */
  datatype Failure = Refused | TypeError | Unavailable | Interrupted

  datatype Result<+T> = Ok(value: T) | Err(failure: Failure)

  /** Applies `f` to every element; the first failure is the result. */
  function Each<A, B>(f: A -> Result<B>, s: seq<A>): (r: Result<seq<B>>)
    ensures r.Ok? <==> forall i :: 0 <= i < |s| ==> f(s[i]).Ok?
    ensures r.Ok? ==> |r.value| == |s| && forall i :: 0 <= i < |s| ==> f(s[i]) == Ok(r.value[i])
    decreases |s|
  {
    if s == [] then Ok([])
    else
      var first := f(s[0]);
      if first.Err? then
        Err(first.failure)
      else
        var rest := Each(f, s[1..]);
        assert forall i :: 0 < i < |s| ==> s[i] == s[1..][i - 1];
        if rest.Err? then
          assert exists i :: 0 <= i < |s| && !f(s[i]).Ok? by {
            var j :| 0 <= j < |s[1..]| && !f(s[1..][j]).Ok?;
            assert s[1..][j] == s[j + 1];
          }
          rest
        else Ok([first.value] + rest.value)
  }

  /** Like `Each`, threading a running state through the elements. */
  function Thread<A, B, S>(f: (A, S) -> Result<(B, S)>, s: seq<A>, state: S): (r: Result<(seq<B>, S)>)
    ensures r.Ok? ==> |r.value.0| == |s|
    decreases |s|
  {
    if s == [] then Ok(([], state))
    else
      var first := f(s[0], state);
      if first.Err? then Err(first.failure)
      else
        var rest := Thread(f, s[1..], first.value.1);
        if rest.Err? then rest else Ok(([first.value.0] + rest.value.0, rest.value.1))
  }

  /** What is already collected, followed by the result for the elements still to come. */
  function After<B, S>(done: seq<B>, rest: Result<(seq<B>, S)>): Result<(seq<B>, S)> {
    if rest.Err? then rest else Ok((done + rest.value.0, rest.value.1))
  }

  function AfterEach<B>(done: seq<B>, rest: Result<seq<B>>): Result<seq<B>> {
    if rest.Err? then rest else Ok(done + rest.value)
  }

  lemma {:induction false} AfterNothing<B, S>(rest: Result<(seq<B>, S)>)
    ensures After([], rest) == rest
  {
    if rest.Ok? {
      assert [] + rest.value.0 == rest.value.0;
    }
  }

  lemma {:induction false} AfterOneMore<B, S>(done: seq<B>, x: B, rest: Result<(seq<B>, S)>)
    ensures After(done, After([x], rest)) == After(done + [x], rest)
  {
    if rest.Ok? {
      assert done + ([x] + rest.value.0) == done + [x] + rest.value.0;
    }
  }

  lemma {:induction false} AfterEachNothing<B>(rest: Result<seq<B>>)
    ensures AfterEach([], rest) == rest
  {
    if rest.Ok? {
      assert [] + rest.value == rest.value;
    }
  }

  lemma {:induction false} AfterEachOneMore<B>(done: seq<B>, x: B, rest: Result<seq<B>>)
    ensures AfterEach(done, AfterEach([x], rest)) == AfterEach(done + [x], rest)
  {
    if rest.Ok? {
      assert done + ([x] + rest.value) == done + [x] + rest.value;
    }
  }

  /** Every collected element is the image of its original under some running state. */
  lemma {:induction false} ThreadEach<A, B, S>(f: (A, S) -> Result<(B, S)>, s: seq<A>, state: S, i: nat)
      returns (before: S)
    requires Thread(f, s, state).Ok? && i < |s|
    ensures f(s[i], before).Ok? && f(s[i], before).value.0 == Thread(f, s, state).value.0[i]
    decreases |s|
  {
    if i == 0 {
      before := state;
    } else {
      before := ThreadEach(f, s[1..], f(s[0], state).value.1, i - 1);
    }
  }

  /** The first failing element decides the failure of the whole run. */
  lemma {:induction false} ThreadFailsAt<A, B, S>(f: (A, S) -> Result<(B, S)>, s: seq<A>, state: S, i: nat)
    requires i < |s| && Thread(f, s[..i], state).Ok?
    requires f(s[i], Thread(f, s[..i], state).value.1).Err?
    ensures Thread(f, s, state) == Err(f(s[i], Thread(f, s[..i], state).value.1).failure)
    decreases i
  {
    if i > 0 {
      assert s[..i][0] == s[0] && s[..i][1..] == s[1..][..i - 1];
      ThreadFailsAt(f, s[1..], f(s[0], state).value.1, i - 1);
    }
  }

  /** A failed run has a first failing element, and its failure is that element's. */
  lemma {:induction false} ThreadFailure<A, B, S>(f: (A, S) -> Result<(B, S)>, s: seq<A>, state: S) returns (i: nat)
    requires Thread(f, s, state).Err?
    ensures i < |s| && Thread(f, s[..i], state).Ok?
    ensures f(s[i], Thread(f, s[..i], state).value.1) == Err(Thread(f, s, state).failure)
    decreases |s|
  {
    if f(s[0], state).Err? {
      i := 0;
    } else {
      i := ThreadFailure(f, s[1..], f(s[0], state).value.1);
      i := i + 1;
      assert s[..i][0] == s[0] && s[..i][1..] == s[1..][..i - 1];
    }
  }

  lemma {:induction false} EachFailure<A, B>(f: A -> Result<B>, s: seq<A>) returns (i: nat)
    requires Each(f, s).Err?
    ensures i < |s| && f(s[i]) == Err(Each(f, s).failure)
    decreases |s|
  {
    if f(s[0]).Err? {
      i := 0;
    } else {
      i := EachFailure(f, s[1..]);
      i := i + 1;
    }
  }

  // ---- strings ---------------------------------------------------------------------

  /** The characters `str.strip` removes. */
  predicate IsSpace(c: char) {
    || '\t' <= c <= '\r' || '\U{1C}' <= c <= ' ' || c == '\U{85}' || c == '\U{A0}' || c == '\U{1680}'
    || '\U{2000}' <= c <= '\U{200A}' || c == '\U{2028}' || c == '\U{2029}' || c == '\U{202F}' || c == '\U{205F}'
    || c == '\U{3000}'
  }

  function TrimStart(s: string): (r: string)
    ensures r == "" || !IsSpace(r[0])
  {
    if s != "" && IsSpace(s[0]) then TrimStart(s[1..]) else s
  }

  function TrimEnd(s: string): (r: string)
    ensures r == "" || !IsSpace(r[|r| - 1])
    ensures r <= s
  {
    if s != "" && IsSpace(s[|s| - 1]) then TrimEnd(s[..|s| - 1]) else s
  }

  function Strip(s: string): (r: string) {
    TrimEnd(TrimStart(s))
  }

  lemma {:induction false} StripIdempotent(s: string)
    ensures Strip(Strip(s)) == Strip(s)
  {
    var r := Strip(s);
    assert r == "" || r[0] == TrimStart(s)[0];
  }

  predicate AllSpace(s: string) {
    forall i :: 0 <= i < |s| ==> IsSpace(s[i])
  }

  /** Stripping removes white space at both ends and nothing else, and leaves none there. */
  lemma {:induction false} StripExactly(s: string) returns (left: string, right: string)
    ensures s == left + Strip(s) + right && AllSpace(left) && AllSpace(right)
    ensures Strip(s) != "" ==> !IsSpace(Strip(s)[0]) && !IsSpace(Strip(s)[|Strip(s)| - 1])
  {
    left := StartTrimmed(s);
    right := EndTrimmed(TrimStart(s));
    assert Strip(s) <= TrimStart(s);
  }

  lemma {:induction false} StartTrimmed(s: string) returns (left: string)
    ensures s == left + TrimStart(s) && AllSpace(left)
  {
    left := "";
    if s != "" && IsSpace(s[0]) {
      left := StartTrimmed(s[1..]);
      left := [s[0]] + left;
      assert s == [s[0]] + s[1..];
    }
  }

  lemma {:induction false} EndTrimmed(s: string) returns (right: string)
    ensures s == TrimEnd(s) + right && AllSpace(right)
  {
    right := "";
    if s != "" && IsSpace(s[|s| - 1]) {
      right := EndTrimmed(s[..|s| - 1]);
      right := right + [s[|s| - 1]];
      assert s == s[..|s| - 1] + [s[|s| - 1]];
    }
  }

  predicate Blank(v: Value) {
    !v.Str? || Strip(v.s) == ""
  }

  /** The number of bytes of a character in UTF-8 (section 3 of RFC 3629). */
  function Utf8Width(c: char): nat {
    if c < '\U{80}' then 1 else if c < '\U{800}' then 2 else if c < '\U{10000}' then 3 else 4
  }

  function Utf8Size(s: string): nat {
    if s == "" then 0 else Utf8Size(s[..|s| - 1]) + Utf8Width(s[|s| - 1])
  }

  /** `lower` on one character; besides A-Z only the Kelvin sign has an ASCII lower case. */
  function LowerChar(c: char): char {
    if 'A' <= c <= 'Z' then ((c as int) + 32) as char else if c == '\U{212A}' then 'k' else c
  }

  function Lower(s: string): (r: string)
    ensures |r| == |s|
  {
    seq(|s|, i requires 0 <= i < |s| => LowerChar(s[i]))
  }

  /** A text takes as many bytes as its parts, and each character one to four (table of section 3 of RFC 3629). */
  lemma {:induction false} Utf8SizeExactly(a: string, b: string, c: char)
    ensures Utf8Size(a + b) == Utf8Size(a) + Utf8Size(b) && Utf8Size("") == 0
    ensures c as int < 0x80 ==> Utf8Size([c]) == 1
    ensures 0x80 <= c as int < 0x800 ==> Utf8Size([c]) == 2
    ensures 0x800 <= c as int < 0x1_0000 ==> Utf8Size([c]) == 3
    ensures 0x1_0000 <= c as int ==> Utf8Size([c]) == 4
    decreases |b|
  {
    assert [c][..0] == "" && Utf8Size([c]) == Utf8Width(c);
    if b == "" {
      assert a + b == a;
    } else {
      var n := |b| - 1;
      assert (a + b)[..|a + b| - 1] == a + b[..n];
      Utf8SizeExactly(a, b[..n], c);
    }
  }

  /** Lower case: the letters A to Z become a to z and the Kelvin sign k; no other character has an ASCII lower case, so none changes here. */
  lemma {:induction false} LowerExactly(s: string, i: nat)
    requires i < |s|
    ensures 65 <= s[i] as int <= 90 ==> Lower(s)[i] as int == s[i] as int + 32
    ensures s[i] == '\U{212A}' ==> Lower(s)[i] == 'k'
    ensures s[i] != '\U{212A}' && !(65 <= s[i] as int <= 90) ==> Lower(s)[i] == s[i]
  {
  }
}
