/**
 * A resolver that serves schema resources from a table of preloaded bytes
 * and hands every other reference to an optional fallback resolver.
 */
module PreloadedResolvers {
  import opened Wrappers
  import opened Uris
  import opened Resolvers

  type Byte = bv8

  /** The argument errors of the add operations, with the name of the offending parameter. */
  datatype ArgumentError = NullArgument(param: string) | InvalidArgument(param: string)

  class PreloadedResolver {
    var preloaded: map<Uri, seq<Byte>>
    /** The resolver consulted for a reference that nothing was preloaded for. */
    const fallback: Option<(ResolveContext, SchemaReference) -> Option<seq<Byte>>>

    constructor(fallback: Option<(ResolveContext, SchemaReference) -> Option<seq<Byte>>>)
      ensures preloaded == map[] && this.fallback == fallback
    {
      preloaded := map[];
      this.fallback := fallback;
    }

    /**
     * The resource for a reference: the preloaded bytes of its base URI, or
     * whatever the fallback yields, or nothing without a fallback.
     */
    function GetSchemaResource(context: ResolveContext, reference: SchemaReference): (r: Option<seq<Byte>>)
      reads this
      ensures reference.baseUri in preloaded ==> r == Some(preloaded[reference.baseUri])
      ensures reference.baseUri !in preloaded && fallback.Some? ==> r == fallback.value(context, reference)
      ensures reference.baseUri !in preloaded && fallback.None? ==> r.None?
    {
      if reference.baseUri in preloaded then Some(preloaded[reference.baseUri])
      else if fallback.Some? then fallback.value(context, reference)
      else None
    }

    /**
     * Preloading bytes under a URI, overwriting an earlier entry; a null URI or
     * value is refused and nothing is stored.
     */
    method AddBytes(uri: Option<Uri>, value: Option<seq<Byte>>) returns (s: Status<ArgumentError>)
      modifies this
      ensures uri.None? ==> s == Raised(NullArgument("uri")) && preloaded == old(preloaded)
      ensures uri.Some? && value.None? ==> s == Raised(NullArgument("value")) && preloaded == old(preloaded)
      ensures uri.Some? && value.Some? ==> s == Done && preloaded == old(preloaded)[uri.value := value.value]
      ensures s.Done? ==> forall c: ResolveContext, r: SchemaReference :: r.baseUri == uri.value ==> GetSchemaResource(c, r) == value
    {
      if uri.None? {
        return Raised(NullArgument("uri"));
      }
      if value.None? {
        return Raised(NullArgument("value"));
      }
      preloaded := preloaded[uri.value := value.value];
      return Done;
    }

    /** Preloading the remaining content of a stream, read to its end. */
    method AddStream(uri: Option<Uri>, stream: Option<seq<Byte>>) returns (s: Status<ArgumentError>)
      modifies this
      ensures uri.None? ==> s == Raised(NullArgument("uri")) && preloaded == old(preloaded)
      ensures uri.Some? && stream.None? ==> s == Raised(NullArgument("value")) && preloaded == old(preloaded)
      ensures uri.Some? && stream.Some? ==> s == Done && preloaded == old(preloaded)[uri.value := stream.value]
    {
      if uri.None? {
        return Raised(NullArgument("uri"));
      }
      if stream.None? {
        return Raised(NullArgument("value"));
      }
      var copied := stream.value;
      s := AddBytes(uri, Some(copied));
    }

    /**
     * Preloading the encoded bytes of a text; a null or empty text is refused.
     * The text encoder (UTF-8 in the library) is a parameter.
     */
    method AddString(uri: Option<Uri>, value: Option<string>, utf8: string -> seq<Byte>) returns (s: Status<ArgumentError>)
      modifies this
      ensures uri.None? ==> s == Raised(NullArgument("uri")) && preloaded == old(preloaded)
      ensures uri.Some? && (value.None? || value.value == "") ==> s == Raised(InvalidArgument("value")) && preloaded == old(preloaded)
      ensures uri.Some? && value.Some? && value.value != "" ==>
                s == Done && preloaded == old(preloaded)[uri.value := utf8(value.value)]
    {
      if uri.None? {
        return Raised(NullArgument("uri"));
      }
      if value.None? || value.value == "" {
        return Raised(InvalidArgument("value"));
      }
      s := AddBytes(uri, Some(utf8(value.value)));
    }
  }
}
