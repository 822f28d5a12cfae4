/** The field resolvers that `createSchemaCustomization` registers as field
    extensions: `blocktype`, `imageUrl` (through `addURLSchema`) and
    `navItemType`. Each is a pure function of its source node or of the
    options given to the directive. */
module SchemaCustomization {
  import opened Wrappers
  import opened Strings

  // ---------------------------------------------------------------------
  // blocktype: the node's internal type name without the CMS prefix
  // ---------------------------------------------------------------------

  const CmsPrefix: string := "Contentful"

  /** `source.internal.type.replace("Contentful", "")`: the first occurrence
      of the prefix is removed, wherever it stands; a name without it is
      returned unchanged. */
  function Blocktype(typeName: string): (r: string)
    ensures !Contains(typeName, CmsPrefix) ==> r == typeName
    ensures Contains(typeName, CmsPrefix) ==> |r| == |typeName| - |CmsPrefix|
  {
    ReplaceFirst(typeName, CmsPrefix, "")
  }

  /** The block kinds whose CMS types carry the `@blocktype` directive. */
  datatype BlockKind = HomepageHero | RecipeGroup

  /** The name of the abstract interface a block kind implements. */
  function KindName(k: BlockKind): (name: string) {
    match k
    case HomepageHero => "HomepageHero"
    case RecipeGroup => "RecipeGroup"
  }

  /** The name of the concrete CMS type declared for a block kind. */
  function CmsTypeName(k: BlockKind): (typeName: string) {
    CmsPrefix + KindName(k)
  }

  /** The resolver turns every CMS block type name back into the name of its
      kind, so a tag can be matched against the closed set of kinds. */
  lemma {:induction false} BlocktypeOfKind(k: BlockKind)
    ensures Blocktype(CmsTypeName(k)) == KindName(k)
  {
    ReplaceFirstLeading(CmsPrefix, KindName(k));
  }

  /** Distinct kinds get distinct block types. */
  lemma {:induction false} BlocktypeDistinguishesKinds(k1: BlockKind, k2: BlockKind)
    requires k1 != k2
    ensures Blocktype(CmsTypeName(k1)) != Blocktype(CmsTypeName(k2))
  {
    BlocktypeOfKind(k1);
    BlocktypeOfKind(k2);
    assert KindName(k1)[0] != KindName(k2)[0];
  }

  /** Only the first occurrence is removed: a name with the prefix twice
      keeps the second one. */
  lemma {:induction false} BlocktypeRemovesOnlyFirst(rest: string)
    ensures Blocktype(CmsPrefix + CmsPrefix + rest) == CmsPrefix + rest
  {
    assert CmsPrefix + CmsPrefix + rest == CmsPrefix + (CmsPrefix + rest);
    ReplaceFirstLeading(CmsPrefix, CmsPrefix + rest);
  }

  /** Where the prefix is found, putting it back into the resolved name at
      the same index rebuilds the original type name. */
  lemma {:induction false} BlocktypeRestores(typeName: string)
    requires Contains(typeName, CmsPrefix)
    ensures var i := IndexOf(typeName, CmsPrefix).value;
            var r := Blocktype(typeName);
            i <= |r| && r[..i] + CmsPrefix + r[i..] == typeName
  {
    ReplaceFirstRestores(typeName, CmsPrefix, "");
  }

  // ---------------------------------------------------------------------
  // imageUrl: protocol-relative asset URLs get an explicit https scheme
  // ---------------------------------------------------------------------

  /** The regular expression `/^\/\//`: the string begins with two slashes. */
  predicate IsProtocolRelative(url: string) {
    |url| >= 2 && url[..2] == "//"
  }

  /** `addURLSchema`: prefixes `https:` to a protocol-relative URL and leaves
      every other string as it is. The result is never protocol-relative, it
      always ends with the input, and it differs from the input exactly when
      the input was protocol-relative. */
  function AddUrlSchema(url: string): (r: string)
    ensures !IsProtocolRelative(r)
    ensures r == url <==> !IsProtocolRelative(url)
    ensures |url| <= |r| && r[|r| - |url|..] == url
    ensures r != url ==> r[..|r| - |url|] == "https:"
  {
    if IsProtocolRelative(url) then
      assert ("https:" + url)[..2] == "ht";
      "https:" + url
    else
      url
  }

  /** Resolving an already resolved URL changes nothing. */
  lemma AddUrlSchemaIdempotent(url: string)
    ensures AddUrlSchema(AddUrlSchema(url)) == AddUrlSchema(url)
  {
  }

  /** The asset's file description as the CMS stores it; its `url` may be
      missing (`undefined`). */
  datatype AssetFile = AssetFile(url: Option<string>)

  /** The `imageUrl` resolver: `addURLSchema(source.file.url)`. A missing URL
      does not match the regular expression, so `undefined` is passed through. */
  function ImageUrl(file: AssetFile): (r: Option<string>)
    ensures r.None? <==> file.url.None?
    ensures r.Some? ==> !IsProtocolRelative(r.value)
    ensures r.Some? && IsProtocolRelative(file.url.value) ==> r.value == "https:" + file.url.value
    ensures r.Some? && !IsProtocolRelative(file.url.value) ==> r.value == file.url.value
  {
    match file.url
    case None => None
    case Some(url) => Some(AddUrlSchema(url))
  }

  // ---------------------------------------------------------------------
  // navItemType: "Group" or "Link", from the directive's `name` argument
  // ---------------------------------------------------------------------

  /** The default value the directive declares for its `name` argument. */
  const DefaultNavItemName: string := "Link"

  /** The `navItemType` resolver: the switch on `options.name`, where an
      omitted argument takes its default. The result is "Group" exactly when
      the name is "Group", and "Link" otherwise. */
  function NavItemType(name: Option<string>): (r: string)
    ensures r == "Group" || r == "Link"
    ensures r == "Group" <==> name.GetOr(DefaultNavItemName) == "Group"
  {
    match name.GetOr(DefaultNavItemName)
    case "Group" => "Group"
    case _ => "Link"
  }

  /** Only the literal name "Group" yields a group; an omitted name yields a
      link, as does every other string, including "group" and "". */
  lemma NavItemTypeDefaultsToLink(name: string)
    requires name != "Group"
    ensures NavItemType(None) == "Link"
    ensures NavItemType(Some(name)) == "Link"
  {
  }
}
