/**
 * The registry of data-source type handlers, keyed by the handler's type name trimmed and
 * lower-cased, so that a lookup ignores letter case and surrounding blanks.
 */
module HandlerRegistry {
  import opened Wrappers
  import opened JavaText
  import opened DatasourceHandlers

  /** normalizeType: "" for a null or blank type, otherwise the type trimmed and lower-cased. */
  function NormalizeType(t: Option<string>): (r: string)
    ensures t.None? || IsBlank(t.value) ==> r == ""
    ensures t.Some? && HasText(t.value) ==> r == ToLower(Trim(t.value))
  {
    if t.None? || !HasText(t.value) then "" else ToLower(Trim(t.value))
  }

  /** Upper-casing keeps the whitespace where it is. */
  lemma UpperKeepsBlanks(t: string)
    ensures IsBlank(ToUpper(t)) <==> IsBlank(t)
    ensures forall i :: 0 <= i < |t| ==> (ToUpper(t)[i] <= ' ' <==> t[i] <= ' ')
  {
    var u := ToUpper(t);
    assert forall i :: 0 <= i < |t| ==> (IsWhitespace(u[i]) <==> IsWhitespace(t[i]));
  }

  /** Lower-casing an upper-cased slice gives the lower-cased slice. */
  lemma LowerOfUpperSlice(t: string, lo: nat, hi: nat)
    requires lo <= hi <= |t|
    ensures ToLower(ToUpper(t)[lo..hi]) == ToLower(t[lo..hi])
  {
    var u := ToUpper(t);
    assert forall i :: 0 <= i < hi - lo ==> LowerChar(u[lo..hi][i]) == LowerChar(t[lo..hi][i]) by {
      assert forall i :: 0 <= i < hi - lo ==> u[lo..hi][i] == UpperChar(t[lo + i]) && t[lo..hi][i] == t[lo + i];
    }
  }

  /** Letter case does not change the key: both spellings of an upper-cased type normalize alike. */
  lemma NormalizeIgnoresCase(t: string)
    ensures NormalizeType(Some(ToUpper(t))) == NormalizeType(Some(t))
  {
    UpperKeepsBlanks(t);
    TrimBoundsSamePattern(t, ToUpper(t));
    var b := TrimBounds(t);
    LowerOfUpperSlice(t, b.0, b.1);
  }

  /** Spaces around a text leave it blank exactly when it was blank. */
  lemma BlankPadded(pre: string, t: string, post: string)
    requires forall i :: 0 <= i < |pre| ==> pre[i] == ' '
    requires forall i :: 0 <= i < |post| ==> post[i] == ' '
    ensures IsBlank(pre + t + post) <==> IsBlank(t)
  {
    var s := pre + t + post;
    assert forall i :: 0 <= i < |t| ==> s[|pre| + i] == t[i];
    assert forall i :: 0 <= i < |s| ==> (i < |pre| ==> s[i] == ' ') && (|pre| + |t| <= i ==> s[i] == ' ') by {
      assert forall i :: 0 <= i < |pre| ==> s[i] == pre[i];
      assert forall i :: |pre| + |t| <= i < |s| ==> s[i] == post[i - |pre| - |t|];
    }
    if IsBlank(t) {
      forall i | 0 <= i < |s| ensures IsWhitespace(s[i]) {
        if |pre| <= i < |pre| + |t| {
          assert s[i] == t[i - |pre|];
        }
      }
    }
  }

  /** Blanks around the type do not change the key. */
  lemma NormalizeIgnoresPadding(pre: string, t: string, post: string)
    requires forall i :: 0 <= i < |pre| ==> pre[i] == ' '
    requires forall i :: 0 <= i < |post| ==> post[i] == ' '
    ensures NormalizeType(Some(pre + t + post)) == NormalizeType(Some(t))
  {
    BlankPadded(pre, t, post);
    TrimPadded(pre, t, post);
  }

  /** The map the registry holds after registering the handlers in order: a later one replaces an earlier one of the same key. */
  function Registered(handlers: seq<Handler>): (m: map<string, Handler>)
    ensures forall key :: key in m <==> exists k :: 0 <= k < |handlers| && NormalizeType(Some(handlers[k].typeName)) == key
    decreases |handlers|
  {
    if |handlers| == 0 then map[]
    else
      var last := handlers[|handlers| - 1];
      var before := handlers[..|handlers| - 1];
      var m := Registered(before)[NormalizeType(Some(last.typeName)) := last];
      assert forall k :: 0 <= k < |before| ==> before[k] == handlers[k];
      m
  }

  class DatasourceTypeHandlerRegistry {
    var handlerMap: map<string, Handler>

    /** Builds the registry from the handlers found in the application context, registering each. */
    constructor(handlers: seq<Handler>)
      ensures handlerMap == Registered(handlers)
    {
      handlerMap := map[];
      new;
      var i := 0;
      while i < |handlers|
        invariant 0 <= i <= |handlers|
        invariant handlerMap == Registered(handlers[..i])
      {
        assert handlers[..i + 1][..i] == handlers[..i];
        Register(handlers[i]);
        i := i + 1;
      }
      assert handlers[..i] == handlers;
    }

    /** register: the handler under its normalized type name, replacing any handler there. */
    method Register(handler: Handler)
      modifies this
      ensures handlerMap == old(handlerMap)[NormalizeType(Some(handler.typeName)) := handler]
    {
      handlerMap := handlerMap[NormalizeType(Some(handler.typeName)) := handler];
    }

    /** isRegistered: a handler is held under the normalized type. */
    predicate IsRegistered(t: Option<string>)
      reads this
    {
      NormalizeType(t) in handlerMap
    }

    /**
     * getRequired: a blank type is an IllegalArgumentException, a type without a handler an
     * IllegalStateException; otherwise the handler held under the normalized type.
     */
    function GetRequired(t: Option<string>): (r: Result<Handler>)
      reads this
      ensures r.Ok? <==> t.Some? && HasText(t.value) && IsRegistered(t)
      ensures r.Ok? ==> r.value == handlerMap[NormalizeType(t)]
      ensures r.Err? && (t.None? || IsBlank(t.value)) ==> r.error == IllegalArgument("Datasource type cannot be blank")
      ensures r.Err? && t.Some? && HasText(t.value) ==> r.error.IllegalState?
    {
      if t.None? || !HasText(t.value) then Err(IllegalArgument("Datasource type cannot be blank"))
      else
        var key := NormalizeType(t);
        if key !in handlerMap then Err(IllegalState("Unsupported datasource type: " + t.value))
        else Ok(handlerMap[key])
    }

    /**
     * A property of the registry, not an operation of it: once a handler is registered, any
     * spelling of its type with text finds it (until another handler of the same key replaces it).
     */
    method RegisterThenGet(handler: Handler, t: string) returns (r: Result<Handler>)
      requires HasText(t) && NormalizeType(Some(t)) == NormalizeType(Some(handler.typeName))
      modifies this
      ensures r == Ok(handler)
    {
      Register(handler);
      r := GetRequired(Some(t));
    }
  }

  /** Looking up an upper-cased type finds the same handler as the type itself. */
  lemma GetRequiredIgnoresCase(registry: DatasourceTypeHandlerRegistry, t: string)
    ensures registry.GetRequired(Some(ToUpper(t))).Ok? <==> registry.GetRequired(Some(t)).Ok?
    ensures registry.GetRequired(Some(t)).Ok? ==>
              registry.GetRequired(Some(ToUpper(t))) == registry.GetRequired(Some(t))
  {
    NormalizeIgnoresCase(t);
    UpperKeepsBlanks(t);
  }
}
