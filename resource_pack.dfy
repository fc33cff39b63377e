/**
 * `VelocityResourcePackInfo` and its `BuilderImpl`: a builder whose setters update it in
 * place, a built descriptor whose fields are final except `originalOrigin`, and the
 * defensive copies of the 20-byte SHA-1 hash.
 */
module ResourcePack {
  import opened Wrappers
  import opened Lang
  import opened Netty

  /** Who asked for the pack to be sent. */
  datatype Origin = PluginOnProxy | DownstreamServer

  /** The length the SHA-1 hash of a pack must have. */
  const HashLength := 20

  /** The contents of a nullable hash array, `None` for null. */
  function HashContents(h: array?<JByte>): Option<seq<JByte>>
    reads h
  {
    if h == null then None else Some(h[..])
  }

  /** A copy of an array: a new array with the same elements (`byte[].clone()`). */
  method Clone(h: array<JByte>) returns (c: array<JByte>)
    ensures fresh(c) && c[..] == h[..]
  {
    c := new JByte[h.Length](i requires 0 <= i < h.Length reads h => h[i]);
  }

  class Info {
    const url: string
    const hash: array?<JByte>
    const shouldForce: bool
    const prompt: Option<Component>
    const origin: Origin
    var originalOrigin: Origin

    /** Only a builder makes one: the hash is null or 20 bytes long. */
    ghost predicate Valid()
    {
      hash == null || hash.Length == HashLength
    }

    /** The private constructor: every field as given, `originalOrigin` starting as `origin`. */
    constructor (url: string, hash: array?<JByte>, shouldForce: bool, prompt: Option<Component>, origin: Origin)
      ensures this.url == url && this.hash == hash && this.shouldForce == shouldForce
      ensures this.prompt == prompt && this.origin == origin && originalOrigin == origin
    {
      this.url := url;
      this.hash := hash;
      this.shouldForce := shouldForce;
      this.prompt := prompt;
      this.origin := origin;
      originalOrigin := origin;
    }

    /** `hash()`: null, or a fresh copy the caller may change without touching this descriptor. */
    method Hash() returns (r: array?<JByte>)
      ensures (r == null) == (hash == null)
      ensures r != null ==> fresh(r) && r[..] == hash[..]
    {
      if hash == null {
        r := null;
      } else {
        r := Clone(hash);
      }
    }

    /** `setOriginalOrigin`: the only field a descriptor lets change. */
    method SetOriginalOrigin(o: Origin)
      modifies this
      ensures originalOrigin == o
    {
      originalOrigin := o;
    }

    /** `asBuilder()`: url, required flag, hash and prompt carried over; the origin is not. */
    method AsBuilder() returns (b: Builder)
      requires Valid()
      ensures fresh(b) && b.Valid()
      ensures b.url == url && b.shouldForce == shouldForce && b.prompt == prompt
      ensures HashContents(b.hash) == HashContents(hash)
      ensures b.origin == PluginOnProxy
    {
      b := AsBuilderFor(url);
    }

    /** `asBuilder(newUrl)`: the same, with the new url. */
    method AsBuilderFor(newUrl: string) returns (b: Builder)
      requires Valid()
      ensures fresh(b) && b.Valid()
      ensures b.url == newUrl && b.shouldForce == shouldForce && b.prompt == prompt
      ensures HashContents(b.hash) == HashContents(hash)
      ensures b.origin == PluginOnProxy
    {
      b := new Builder(newUrl);
      b.Required(shouldForce);
      var r := b.Hash(hash);
      if r.Failure? {
        // a descriptor's hash is null or 20 bytes long, which `hash` accepts
        assert false;
      }
      b.Prompt(prompt);
    }
  }

  class Builder {
    const url: string
    var shouldForce: bool
    var hash: array?<JByte>
    var prompt: Option<Component>
    var origin: Origin

    ghost predicate Valid()
      reads this
    {
      hash == null || hash.Length == HashLength
    }

    /** `new BuilderImpl(url)`: not required, no hash, no prompt, origin `PLUGIN_ON_PROXY`. */
    constructor (url: string)
      ensures Valid()
      ensures this.url == url && !shouldForce && hash == null && prompt == None && origin == PluginOnProxy
    {
      this.url := url;
      shouldForce := false;
      hash := null;
      prompt := None;
      origin := PluginOnProxy;
    }

    method Required(shouldForce: bool)
      modifies this
      ensures this.shouldForce == shouldForce
      ensures hash == old(hash) && prompt == old(prompt) && origin == old(origin)
    {
      this.shouldForce := shouldForce;
    }

    /**
     * `hash(h)`: a non-null hash must be 20 bytes long and is stored as a private copy;
     * null clears the hash. A rejected hash leaves the builder as it was.
     */
    method Hash(h: array?<JByte>) returns (r: Result<(), Thrown>)
      requires Valid()
      modifies this
      ensures Valid()
      ensures shouldForce == old(shouldForce) && prompt == old(prompt) && origin == old(origin)
      ensures h != null && h.Length != HashLength <==> r.Failure?
      ensures r.Failure? ==> r.error == IllegalArgument("Hash length is not 20") && hash == old(hash)
      ensures h == null ==> hash == null
      ensures h != null && h.Length == HashLength ==> fresh(hash) && hash[..] == h[..]
    {
      if h != null {
        if h.Length != HashLength {
          return Failure(IllegalArgument("Hash length is not 20"));
        }
        hash := Clone(h);
      } else {
        hash := null;
      }
      r := Success(());
    }

    method Prompt(prompt: Option<Component>)
      modifies this
      ensures this.prompt == prompt
      ensures shouldForce == old(shouldForce) && hash == old(hash) && origin == old(origin)
    {
      this.prompt := prompt;
    }

    method SetOrigin(origin: Origin)
      modifies this
      ensures this.origin == origin
      ensures shouldForce == old(shouldForce) && hash == old(hash) && prompt == old(prompt)
    {
      this.origin := origin;
    }

    /** `build()`: a descriptor with this builder's fields, sharing its current hash array. */
    method Build() returns (info: Info)
      requires Valid()
      ensures fresh(info) && info.Valid()
      ensures info.url == url && info.hash == hash && info.shouldForce == shouldForce
      ensures info.prompt == prompt && info.origin == origin && info.originalOrigin == origin
    {
      info := new Info(url, hash, shouldForce, prompt, origin);
    }
  }

  /**
   * Rebuilding a descriptor through `asBuilder()` keeps what a client sees (url, required
   * flag, hash contents, prompt) and resets both origins to `PLUGIN_ON_PROXY`.
   */
  method Rebuild(info: Info) returns (copy: Info)
    requires info.Valid()
    ensures fresh(copy) && copy.Valid()
    ensures copy.url == info.url && copy.shouldForce == info.shouldForce && copy.prompt == info.prompt
    ensures HashContents(copy.hash) == HashContents(info.hash)
    ensures copy.origin == PluginOnProxy && copy.originalOrigin == PluginOnProxy
  {
    var b := info.AsBuilder();
    copy := b.Build();
  }
}
