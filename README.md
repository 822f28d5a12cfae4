# johnson.recipes build logic, modelled in Dafny

This project models the logic of the Gatsby site configuration in
`gatsby-node.ts` of the johnson.recipes recipe website:

- **`createPages`**: the page planner. It takes the result of the
  `allContentfulRecipe` query (recipe records `{id, title}` in query order, or
  a list of errors). If errors are present, it reports a build panic and
  creates nothing. Otherwise it creates one page per recipe, in order, at path
  `"/" + getSlug(title)`. The page's template context holds the recipe's own
  id and the ids of the recipes before and after it, with `null` at the ends.
  The model is a method (`PagePlanner.CreatePages`) whose loop appends to the
  list of created pages and to the `reporter.info` log. It is proved equal to
  a functional plan (`PagePlanner.Plan`). The plan is then characterised
  independently as the only doubly linked list of pages that describes the
  recipes (`PagePlanner.PlanCharacterized`).
- **The field resolvers registered by `createSchemaCustomization`**:
  - `blocktype` removes the first `"Contentful"` from a node's type name,
    modelled on JavaScript's `String.prototype.replace` with a string pattern
    (`Strings.IndexOf`, `Strings.ReplaceFirst`).
  - `imageUrl` (through `addURLSchema`) gives protocol-relative URLs an
    `https:` scheme.
  - `navItemType` yields `"Group"` for the name `"Group"` and `"Link"` for
    everything else, including the default name.

The slug function `getSlug` (`src/util.ts`) wraps the external `slugify`
library. The model does not implement it. The planner takes the slug
function as a parameter (`slug: string -> string`), so everything proved
about the planner holds for any deterministic slug function. Two recipes with
the same title therefore get the same path (`PagePlanner.SameTitleSamePath`).

Files: `wrappers.dfy` (Option, for JavaScript `null` and omitted arguments),
`strings.dfy` (first-occurrence search and replace), `schema.dfy` (the
resolvers), `pages.dfy` (the page planner).

## Model

| member | source | states |
|---|---|---|
| `Strings.IndexOf` | gatsby-node.ts:13 | The result is the first index where the pattern occurs. No earlier index is an occurrence. None is returned exactly when the pattern occurs nowhere. |
| `Strings.ReplaceFirst` | gatsby-node.ts:13 | A string without the pattern comes back unchanged. Otherwise the length changes by the replacement's length minus the pattern's. |
| `Strings.ReplaceFirstRestores` | gatsby-node.ts:13 | The replacement stands exactly where the first occurrence stood. Putting the pattern back in its place gives the original string, so only the first occurrence is touched. |
| `Strings.ReplaceFirstLeading` | gatsby-node.ts:13 | For a string that begins with the pattern, replacing with nothing strips exactly that prefix. |
| `SchemaCustomization.Blocktype` | gatsby-node.ts:12-14 | A type name without "Contentful" is returned unchanged. Otherwise the result is exactly ten characters shorter. |
| `SchemaCustomization.BlocktypeOfKind` | gatsby-node.ts:12-14 | Every CMS block type (`ContentfulHomepageHero`, `ContentfulRecipeGroup`) resolves to the name of its kind. |
| `SchemaCustomization.BlocktypeDistinguishesKinds` | gatsby-node.ts:12-14 | Distinct block kinds resolve to distinct block types. |
| `SchemaCustomization.BlocktypeRemovesOnlyFirst` | gatsby-node.ts:13 | Only the first "Contentful" is removed: a name that has it twice keeps the second. |
| `SchemaCustomization.BlocktypeRestores` | gatsby-node.ts:13 | Re-inserting "Contentful" at the index where it was found rebuilds the original type name. |
| `SchemaCustomization.AddUrlSchema` | gatsby-node.ts:32-36 | The result never starts with "//". It differs from the input exactly when the input started with "//", and then it is "https:" followed by the input. The input is always a suffix of the result. |
| `SchemaCustomization.AddUrlSchemaIdempotent` | gatsby-node.ts:32-36 | Applying `addURLSchema` twice gives the same result as applying it once. |
| `SchemaCustomization.ImageUrl` | gatsby-node.ts:38-40 | A missing file URL resolves to a missing value (`undefined`). A present URL resolves to one that is never protocol-relative: a protocol-relative URL gets "https:" prepended, and any other URL is passed through. |
| `SchemaCustomization.NavItemType` | gatsby-node.ts:45-65 | The result is "Group" or "Link". It is "Group" exactly when the effective name is "Group". An omitted name defaults to "Link". |
| `SchemaCustomization.NavItemTypeDefaultsToLink` | gatsby-node.ts:47-61 | An omitted name, and every name other than "Group", yields "Link". |
| `PagePlanner.Plan` | gatsby-node.ts:376-394 | One page per recipe, in query order. Each page carries its recipe's id and the path "/" + slug(title). |
| `PagePlanner.CreatePages` | gatsby-node.ts:347-396 | A query with errors (even an empty error list) creates no pages, logs nothing and panics with "There was an error loading your recipes" and the errors. Otherwise there is no panic, the pages created are exactly `Plan` of the nodes (none for an empty list), and the log holds one line "Created /" + slug(title) per recipe, in query order. |
| `PagePlanner.PlanCharacterized` | gatsby-node.ts:378-394 | A page list equals the plan if and only if it describes the recipes one to one (same length, ids, paths) and is doubly linked: the first has no previous id, the last has no next id, and neighbours point at each other. |
| `PagePlanner.PlanIsLinked` | gatsby-node.ts:378-394 | The plan describes the recipes one to one and is doubly linked. |
| `PagePlanner.LinkedDescriptionIsPlan` | gatsby-node.ts:378-394 | Any doubly linked page list that describes the recipes is the plan, so the plan is the only one. |
| `PagePlanner.PreviousIdIsPredecessor` | gatsby-node.ts:381 | Page i's previousId is null for i = 0 and otherwise the id of recipe i-1. |
| `PagePlanner.NextIdIsSuccessor` | gatsby-node.ts:382 | Page i's nextId is null for the last index and otherwise the id of recipe i+1. |
| `PagePlanner.SingleRecipeHasNoNeighbours` | gatsby-node.ts:381-382 | A single recipe gets one page with both neighbour ids null. |
| `PagePlanner.SameTitleSamePath` | gatsby-node.ts:379-386 | Two recipes with the same title get the same path. Colliding slugs are not disambiguated. |
| `PagePlanner.ThreeRecipesLinked` | gatsby-node.ts:381-382 | Recipes A, B, C are linked as [null, B], [A, C], [B, null]. |

## Left out

- `getSlug` / `slugify` (`src/util.ts:3-11`): the slug algorithm belongs to an external library. It is a parameter of the planner, so lowercasing, ASCII folding, stripping and trimming are not modelled. Nothing is proved about the shape of a slug, for example that it is URL-safe.
- The GraphQL type declarations (`gatsby-node.ts:82-344`): these are schema configuration with no behaviour. They are used only for the block kinds and the `navItemType` names they declare.
- The `richText` resolver (`gatsby-node.ts:67-79`): it is `JSON.parse` followed by an external rich-text-to-HTML renderer, and both are foreign calls.
- `imagePassthroughArgs` (`gatsby-node.ts:19-27`): it only forwards the arguments of an external image resolver.
- The `graphql` query, `path.resolve` of the page template and the async plumbing of `createPages` are I/O. The query result is an input (`QueryResult`), and the template component is left out of `PageInstruction`. `createPage` and `reporter.info` become appends to the returned `pages` and `log` sequences, and `reporter.panicOnBuild` becomes the returned `panic` value. Build termination after a panic is not modelled.
- React templates and components (`src/templates/recipe.js`, `src/components/recipe-group.js`, `src/components/layout.js`): these are presentation only.
- `Strings.ReplaceFirst`: the replacement is inserted literally. JavaScript's `$&`, `$$`, `` $` `` and `$'` replacement patterns are not interpreted. The only replacement the resolvers use is the empty string, which contains none.
- `SchemaCustomization.ImageUrl`: an asset whose `file` is `null` makes the resolver throw a TypeError; the model takes the file as given and does not represent that case. A `url` that is present but not a string (which the regular expression would coerce to a string) is not represented either.
