/**
 * Splitting a schema identifier into the resource it names and its fragment,
 * and turning a resolution context into a schema reference.
 */
module Resolvers {
  import opened Wrappers
  import opened Uris

  datatype ResolveError = ArgumentNull | NullReference | NotImplemented

  /** The fragment of an absolute URI: its text from the first '#' on, empty when there is none. */
  function Fragment(u: Uri): (f: string)
    ensures f == "" <==> '#' !in u.original
  {
    var i := HashIndex(u.original);
    assert i < |u.original| ==> u.original[i] in u.original;
    if i < |u.original| then u.original[i..] else ""
  }

  /**
   * Removing the fragment of a URI: an absolute URI without a fragment comes
   * back unchanged; otherwise the text is split at its first '#' and the part
   * before it is read again as a URI.
   */
  function RemoveFragment(uri: Option<Uri>): (r: Result<(Uri, Option<string>), ResolveError>)
  {
    if uri.None? then Failure(ArgumentNull)
    else
      var u := uri.value;
      if u.isAbsolute && Fragment(u) == "" then Success((u, None))
      else
        var i := HashIndex(u.original);
        if i == |u.original| then Success((ParseRelativeOrAbsolute(u.original), None))
        else Success((ParseRelativeOrAbsolute(u.original[..i]), Some(u.original[i..])))
  }

  /** A null URI is refused; every other URI splits. */
  lemma RemoveFragmentFails(uri: Option<Uri>)
    ensures RemoveFragment(uri).Failure? <==> uri.None?
    ensures RemoveFragment(uri).Failure? ==> RemoveFragment(uri).error == ArgumentNull
  {
  }

  /**
   * The split is exact: the base text followed by the fragment is the original
   * text, the fragment starts at the first '#', and without a '#' the base is
   * the whole text and there is no fragment.
   */
  lemma {:induction false} RemoveFragmentSplits(u: Uri)
    ensures RemoveFragment(Some(u)).Success?
    ensures var (b, f) := RemoveFragment(Some(u)).value;
      b.original + (if f.Some? then f.value else "") == u.original &&
      '#' !in b.original &&
      (f.Some? ==> |f.value| > 0 && f.value[0] == '#') &&
      (f.None? <==> '#' !in u.original)
  {
    var i := HashIndex(u.original);
    var (b, f) := RemoveFragment(Some(u)).value;
    if i < |u.original| {
      assert u.original[i] in u.original;
      assert f == Some(u.original[i..]);
      assert b.original == u.original[..i];
      assert '#' !in b.original by {
        forall k | 0 <= k < |b.original| ensures b.original[k] != '#' {
          assert b.original[k] == u.original[k];
        }
      }
    } else {
      assert '#' !in u.original;
      assert b.original == u.original;
    }
  }

  /** An absolute URI with no fragment comes back as it is, with no fragment. */
  lemma AbsoluteWithoutFragmentUnchanged(u: Uri)
    requires u.isAbsolute && '#' !in u.original
    ensures RemoveFragment(Some(u)) == Success((u, None))
  {
  }

  /** Removing the fragment of a base again finds no fragment and keeps its text. */
  lemma {:induction false} RemoveFragmentIdempotent(u: Uri)
    ensures var b := RemoveFragment(Some(u)).value.0;
      RemoveFragment(Some(b)).Success? &&
      RemoveFragment(Some(b)).value.1.None? && RemoveFragment(Some(b)).value.0.original == b.original
  {
    RemoveFragmentSplits(u);
    var b := RemoveFragment(Some(u)).value.0;
    assert '#' !in b.original;
  }

  /**
   * What a resolution sees: the resolver's base URI and the identifier being
   * resolved, either of which may be null.
   */
  datatype ResolveContext = ResolveContext(resolverBaseUri: Option<Uri>, resolvedSchemaId: Option<Uri>)

  predicate StartsWithHash(s: string)
  {
    |s| > 0 && s[0] == '#'
  }

  /**
   * The base URI and fragment for a context: a relative '#' identifier keeps
   * the resolver's base and is all fragment; with no usable resolver base the
   * identifier's own fragment is removed; combining an identifier with a
   * resolver base is not implemented.
   */
  function ResolveBaseUri(context: ResolveContext): (r: Result<(Option<Uri>, Option<string>), ResolveError>)
  {
    if context.resolvedSchemaId.None? then Failure(NullReference)
    else
      var id := context.resolvedSchemaId.value;
      var base := context.resolverBaseUri;
      if !id.isAbsolute && StartsWithHash(id.original) then Success((base, Some(id.original)))
      else if base.None? || (!base.value.isAbsolute && |base.value.original| == 0) then
        var split := RemoveFragment(Some(id));
        Success((Some(split.value.0), split.value.1))
      else Failure(NotImplemented)
  }

  /** The three outcomes of resolving a base URI, each with the condition that selects it. */
  lemma ResolveBaseUriCases(context: ResolveContext)
    requires context.resolvedSchemaId.Some?
    ensures var id := context.resolvedSchemaId.value;
      var base := context.resolverBaseUri;
      var r := ResolveBaseUri(context);
      (!id.isAbsolute && StartsWithHash(id.original) ==> r == Success((base, Some(id.original)))) &&
      (!(!id.isAbsolute && StartsWithHash(id.original)) && (base.None? || (!base.value.isAbsolute && base.value.original == "")) ==>
        r.Success? && r.value.0.Some? && Success((r.value.0.value, r.value.1)) == RemoveFragment(Some(id))) &&
      (!(!id.isAbsolute && StartsWithHash(id.original)) && base.Some? && (base.value.isAbsolute || base.value.original != "") ==>
        r == Failure(NotImplemented))
  {
  }

  /** A reference: the base URI of the resource and the identifier of a sub-schema inside it. */
  datatype SchemaReference = SchemaReference(baseUri: Uri, subschemaId: Option<Uri>)

  /** The reference constructor refuses a null base URI. */
  function NewReference(baseUri: Option<Uri>, subschemaId: Option<Uri>): (r: Result<SchemaReference, ResolveError>)
    ensures r.Success? <==> baseUri.Some?
    ensures r.Success? ==> r.value.baseUri == baseUri.value && r.value.subschemaId == subschemaId
    ensures r.Failure? ==> r.error == ArgumentNull
  {
    if baseUri.None? then Failure(ArgumentNull) else Success(SchemaReference(baseUri.value, subschemaId))
  }

  /** The reference for a context: the resolved base with the fragment read as a URI. */
  function ResolveSchemaReference(context: ResolveContext): (r: Result<SchemaReference, ResolveError>)
  {
    var res :- ResolveBaseUri(context);
    var (base, fragment) := res;
    NewReference(base, if fragment.Some? then Some(ParseRelativeOrAbsolute(fragment.value)) else None)
  }

  /**
   * A resolved reference has a sub-schema identifier exactly when a fragment
   * was found, and the identifier's text is that fragment.
   */
  lemma ReferenceFragment(context: ResolveContext)
    requires ResolveBaseUri(context).Success?
    ensures var (base, fragment) := ResolveBaseUri(context).value;
      var r := ResolveSchemaReference(context);
      (r.Success? <==> base.Some?) &&
      (r.Success? ==> r.value.baseUri == base.value) &&
      (r.Success? ==> (r.value.subschemaId.None? <==> fragment.None?)) &&
      (r.Success? && fragment.Some? ==> r.value.subschemaId.value.original == fragment.value)
  {
  }

  /** A '#' identifier with no resolver base has no base URI, and the reference constructor refuses it. */
  lemma HashIdWithoutBaseFails(id: Uri)
    requires !id.isAbsolute && StartsWithHash(id.original)
    ensures ResolveSchemaReference(ResolveContext(None, Some(id))) == Failure(ArgumentNull)
  {
  }

  /** A '#' identifier under a resolver base refers into that base, with the whole identifier as sub-schema. */
  lemma HashIdUnderBase(base: Uri, id: Uri)
    requires !id.isAbsolute && StartsWithHash(id.original)
    ensures ResolveSchemaReference(ResolveContext(Some(base), Some(id))) ==
      Success(SchemaReference(base, Some(ParseRelativeOrAbsolute(id.original))))
  {
  }
}
