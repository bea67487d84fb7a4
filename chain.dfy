/**
 * The converter chain of core/sekt.kt: the configured converters in reverse
 * order followed by the default converter, and `firstNotNullOf` selecting
 * the exception a non-success response is turned into.
 */
module Chain {
  import opened Options
  import opened Json
  import opened Errors

  /** `List.reversed()`. */
  function Reverse<T>(s: seq<T>): (r: seq<T>)
    ensures |r| == |s|
    ensures forall i :: 0 <= i < |s| ==> r[i] == s[|s| - 1 - i]
  {
    if s == [] then [] else Reverse(s[1..]) + [s[0]]
  }

  /** Reversing twice gives back the original order. */
  lemma ReverseInvolution<T>(s: seq<T>)
    ensures Reverse(Reverse(s)) == s
  {
    var r := Reverse(Reverse(s));
    assert |r| == |s|;
    forall i | 0 <= i < |s| ensures r[i] == s[i] {
      assert r[i] == Reverse(s)[|s| - 1 - i];
    }
  }

  /** Every converter in `convs` returns null on (code, body). */
  predicate AllNull(convs: seq<Converter>, code: int, body: Json) {
    forall i :: 0 <= i < |convs| ==> convs[i](code, body).None?
  }

  /**
   * `firstNotNullOf { it(code, body) }`: the result of the first converter that
   * does not return null. None stands for the NoSuchElementException that
   * `firstNotNullOf` raises when every converter returns null.
   */
  function FirstNotNull(convs: seq<Converter>, code: int, body: Json): (r: Option<WebDriverException>)
    ensures r.None? <==> AllNull(convs, code, body)
    ensures r.Some? ==> exists i :: 0 <= i < |convs| && convs[i](code, body) == r && AllNull(convs[..i], code, body)
  {
    if convs == [] then None
    else if convs[0](code, body).Some? then
      assert AllNull(convs[..0], code, body);
      convs[0](code, body)
    else
      var r := FirstNotNull(convs[1..], code, body);
      if r.Some? then
        var i :| 0 <= i < |convs[1..]| && convs[1..][i](code, body) == r && AllNull(convs[1..][..i], code, body);
        assert convs[..i + 1] == [convs[0]] + convs[1..][..i];
        assert convs[i + 1] == convs[1..][i];
        r
      else
        assert forall j :: 1 <= j < |convs| ==> convs[j] == convs[1..][j - 1];
        r
  }

  /** A converter that answers after only null answers is the one selected. */
  lemma {:induction false} FirstNotNullAt(convs: seq<Converter>, i: nat, code: int, body: Json)
    requires i < |convs|
    requires convs[i](code, body).Some?
    requires AllNull(convs[..i], code, body)
    ensures FirstNotNull(convs, code, body) == convs[i](code, body)
  {
    if i > 0 {
      assert convs[..i][0] == convs[0];
      var rest := convs[1..][..i - 1];
      assert AllNull(rest, code, body) by {
        forall j | 0 <= j < |rest| ensures rest[j](code, body).None? {
          assert rest[j] == convs[..i][j + 1];
        }
      }
      FirstNotNullAt(convs[1..], i - 1, code, body);
    }
  }

  /** Selection over a concatenation: the first list decides unless all of it returns null. */
  lemma {:induction false} FirstNotNullAppend(a: seq<Converter>, b: seq<Converter>, code: int, body: Json)
    ensures FirstNotNull(a + b, code, body)
      == if FirstNotNull(a, code, body).Some? then FirstNotNull(a, code, body) else FirstNotNull(b, code, body)
  {
    if a != [] {
      assert (a + b)[0] == a[0];
      assert (a + b)[1..] == a[1..] + b;
      FirstNotNullAppend(a[1..], b, code, body);
    } else {
      assert a + b == b;
    }
  }

  /** `errorConverters.reversed() + defaultConverter()`. */
  function ConverterChain(user: seq<Converter>): (r: seq<Converter>)
    ensures |r| == |user| + 1
    ensures forall i :: 0 <= i < |user| ==> r[i] == user[|user| - 1 - i]
    ensures r[|user|] == DefaultConverter
  {
    Reverse(user) + [DefaultConverter]
  }

  /** The exception a non-success response is turned into under the configured converters. */
  function Select(user: seq<Converter>, code: int, body: Json): Option<WebDriverException> {
    FirstNotNull(ConverterChain(user), code, body)
  }

  /**
   * Because the default converter never returns null, selection always
   * yields an exception: NoSuchElementException cannot arise from the chain.
   */
  lemma SelectAlwaysSucceeds(user: seq<Converter>, code: int, body: Json)
    ensures Select(user, code, body).Some?
  {
    var c := ConverterChain(user);
    assert c[|user|](code, body).Some?;
  }

  /** The default converter decides exactly when every configured converter returns null. */
  lemma DefaultOnlyWhenAllNull(user: seq<Converter>, code: int, body: Json)
    ensures AllNull(user, code, body) ==> Select(user, code, body) == DefaultConverter(code, body)
    ensures !AllNull(user, code, body) ==> exists i :: 0 <= i < |user| && Select(user, code, body) == user[i](code, body) && user[i](code, body).Some?
  {
    var rev := Reverse(user);
    FirstNotNullAppend(rev, [DefaultConverter], code, body);
    if AllNull(user, code, body) {
      assert AllNull(rev, code, body) by {
        forall i | 0 <= i < |rev| ensures rev[i](code, body).None? {
          assert rev[i] == user[|user| - 1 - i];
        }
      }
      assert FirstNotNull([DefaultConverter], code, body) == DefaultConverter(code, body);
    } else {
      var k :| 0 <= k < |user| && user[k](code, body).Some?;
      assert rev[|user| - 1 - k] == user[k];
      assert !AllNull(rev, code, body);
      var i :| 0 <= i < |rev| && rev[i](code, body) == FirstNotNull(rev, code, body) && AllNull(rev[..i], code, body);
      assert rev[i] == user[|user| - 1 - i];
    }
  }

  /**
   * The last-added converter is tried first: the configured converter at the
   * highest index that returns non-null decides, and those after it are
   * never consulted.
   */
  lemma LastAddedWins(user: seq<Converter>, k: nat, code: int, body: Json)
    requires k < |user|
    requires user[k](code, body).Some?
    requires forall j :: k < j < |user| ==> user[j](code, body).None?
    ensures Select(user, code, body) == user[k](code, body)
  {
    var rev := Reverse(user);
    assert Select(user, code, body) == FirstNotNull(rev + [DefaultConverter], code, body);
    var p := |user| - 1 - k;
    assert rev[p] == user[k];
    assert AllNull(rev[..p], code, body) by {
      forall j | 0 <= j < p ensures rev[..p][j](code, body).None? {
        assert rev[..p][j] == rev[j] == user[|user| - 1 - j];
      }
    }
    hide *;
    FirstNotNullAppend(rev, [DefaultConverter], code, body);
    FirstNotNullAt(rev, p, code, body);
  }

  /** Ktor's `HttpStatusCode.isSuccess()`: a status in 200 until 300. */
  predicate IsSuccessStatus(status: int) {
    200 <= status < 300
  }

  /** What the response validator does with a response. */
  datatype Validation = Passes | Raises(exc: WebDriverException)

  /**
   * `validateResponse`: a success status passes through untouched; any other
   * status is converted and the selected exception thrown.
   */
  function Validate(user: seq<Converter>, status: int, body: Json): (r: Validation)
    ensures r.Passes? <==> IsSuccessStatus(status)
    ensures r.Raises? ==> Some(r.exc) == Select(user, status, body)
  {
    if IsSuccessStatus(status) then Passes
    else
      SelectAlwaysSucceeds(user, status, body);
      Raises(Select(user, status, body).value)
  }

  /**
   * The overload without converters passes an empty list: every non-success
   * response is then handled by the default converter alone.
   */
  lemma NoConvertersUsesDefault(status: int, body: Json)
    ensures !IsSuccessStatus(status) ==> Validate([], status, body) == Raises(DefaultConverter(status, body).value)
  {
    DefaultOnlyWhenAllNull([], status, body);
  }

  /** `WebDriver.errorConverters`: the configured converters in reversed order (core/common.kt). */
  function DriverConverters(configured: seq<Converter>): (r: seq<Converter>)
    ensures |r| == |configured|
    ensures forall i :: 0 <= i < |configured| ==> r[i] == configured[|configured| - 1 - i]
  {
    Reverse(configured)
  }
}
