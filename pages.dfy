/** `createPages`: the recipes returned by the content query become one page
    each, in query order, and each page knows the ids of the recipes before
    and after it. The slug function (`getSlug`, a wrapper over the `slugify`
    library) is not modelled: the planner takes it as a parameter, so every
    statement here holds for any deterministic slug function. */
module PagePlanner {
  import opened Wrappers

  type RecipeId = string

  /** A node of `allContentfulRecipe` as the query selects it. */
  datatype Recipe = Recipe(id: RecipeId, title: string)

  /** The argument of one `createPage` call: the page's path and the
      template context (its own id and its neighbours' ids, `null` at the ends). */
  datatype PageInstruction = PageInstruction(
    path: string,
    id: RecipeId,
    previousId: Option<RecipeId>,
    nextId: Option<RecipeId>)

  /** What the content query returns: `errors` is present (even when it is an
      empty list, which JavaScript still treats as true) or the recipe nodes. */
  datatype QueryResult = QueryResult(errors: Option<seq<string>>, nodes: seq<Recipe>)

  /** A `panicOnBuild` report: the message and the query's errors. */
  datatype Panic = Panic(message: string, errors: seq<string>)

  const LoadErrorMessage: string := "There was an error loading your recipes"

  /** The path of a recipe's page: a slash before its title's slug. */
  function PagePath(title: string, slug: string -> string): (path: string) {
    "/" + slug(title)
  }

  /** The page for the recipe at `index`: the body of the `forEach` callback. */
  function PageAt(recipes: seq<Recipe>, index: nat, slug: string -> string): (page: PageInstruction)
    requires index < |recipes|
  {
    PageInstruction(
      PagePath(recipes[index].title, slug),
      recipes[index].id,
      if index == 0 then None else Some(recipes[index - 1].id),
      if index == |recipes| - 1 then None else Some(recipes[index + 1].id))
  }

  /** All pages of a successful query, one per recipe, in query order. */
  function Plan(recipes: seq<Recipe>, slug: string -> string): (pages: seq<PageInstruction>)
    ensures |pages| == |recipes|
    ensures forall i :: 0 <= i < |pages| ==>
      pages[i].id == recipes[i].id && pages[i].path == PagePath(recipes[i].title, slug)
  {
    seq(|recipes|, i requires 0 <= i < |recipes| => PageAt(recipes, i, slug))
  }

  /** `createPages`: a query with errors panics and creates nothing; otherwise,
      when there is at least one recipe, the loop calls `createPage` (appends
      to `pages`) and `reporter.info` (appends to `log`) once per recipe. */
  method CreatePages(result: QueryResult, slug: string -> string)
    returns (pages: seq<PageInstruction>, log: seq<string>, panic: Option<Panic>)
    ensures result.errors.Some? ==>
      pages == [] && log == [] && panic == Some(Panic(LoadErrorMessage, result.errors.value))
    ensures result.errors.None? ==>
      panic == None && pages == Plan(result.nodes, slug) &&
      |log| == |result.nodes| &&
      forall i :: 0 <= i < |log| ==> log[i] == "Created " + PagePath(result.nodes[i].title, slug)
  {
    pages, log, panic := [], [], None;
    if result.errors.Some? {
      panic := Some(Panic(LoadErrorMessage, result.errors.value));
      return;
    }
    var recipes := result.nodes;
    if |recipes| > 0 {
      var index := 0;
      while index < |recipes|
        invariant 0 <= index <= |recipes|
        invariant |pages| == index && |log| == index
        invariant forall k :: 0 <= k < index ==> pages[k] == PageAt(recipes, k, slug)
        invariant forall k :: 0 <= k < index ==> log[k] == "Created " + pages[k].path
      {
        var title, id := recipes[index].title, recipes[index].id;
        var pageSlug := slug(title);
        var previousId := if index == 0 then None else Some(recipes[index - 1].id);
        var nextId := if index == |recipes| - 1 then None else Some(recipes[index + 1].id);
        log := log + ["Created /" + pageSlug];
        pages := pages + [PageInstruction("/" + pageSlug, id, previousId, nextId)];
        index := index + 1;
      }
    }
  }

  // ---------------------------------------------------------------------
  // An independent description of a plan: a doubly linked list of pages
  // ---------------------------------------------------------------------

  /** The pages form a doubly linked list: the first has no previous page,
      the last has no next page, and neighbours point at each other. */
  ghost predicate Linked(pages: seq<PageInstruction>) {
    (|pages| > 0 ==> pages[0].previousId == None && pages[|pages| - 1].nextId == None) &&
    (forall i :: 0 < i < |pages| ==>
       pages[i - 1].nextId == Some(pages[i].id) && pages[i].previousId == Some(pages[i - 1].id))
  }

  /** The pages stand for the recipes one to one, in order, with the path
      derived from each recipe's title. */
  ghost predicate Describes(pages: seq<PageInstruction>, recipes: seq<Recipe>, slug: string -> string) {
    |pages| == |recipes| &&
    forall i :: 0 <= i < |pages| ==>
      pages[i].id == recipes[i].id && pages[i].path == PagePath(recipes[i].title, slug)
  }

  /** The plan describes the recipes and is doubly linked. */
  lemma {:induction false} PlanIsLinked(recipes: seq<Recipe>, slug: string -> string)
    ensures Describes(Plan(recipes, slug), recipes, slug)
    ensures Linked(Plan(recipes, slug))
  {
    var plan := Plan(recipes, slug);
    forall i | 0 < i < |plan|
      ensures plan[i - 1].nextId == Some(plan[i].id) && plan[i].previousId == Some(plan[i - 1].id)
    {
      assert plan[i - 1] == PageAt(recipes, i - 1, slug);
      assert plan[i] == PageAt(recipes, i, slug);
    }
    if |plan| > 0 {
      assert plan[0] == PageAt(recipes, 0, slug);
      assert plan[|plan| - 1] == PageAt(recipes, |plan| - 1, slug);
    }
  }

  /** A doubly linked list of pages that describes the recipes is the plan. */
  lemma {:induction false} LinkedDescriptionIsPlan(
    pages: seq<PageInstruction>, recipes: seq<Recipe>, slug: string -> string)
    requires Describes(pages, recipes, slug) && Linked(pages)
    ensures pages == Plan(recipes, slug)
  {
    var plan := Plan(recipes, slug);
    forall i | 0 <= i < |pages|
      ensures pages[i] == plan[i]
    {
      assert plan[i] == PageAt(recipes, i, slug);
      if i > 0 {
        assert pages[i].previousId == Some(pages[i - 1].id);
      }
      if i < |pages| - 1 {
        assert pages[i].nextId == Some(pages[i + 1].id);
      }
    }
  }

  /** The plan is exactly the linked list of pages that describes the
      recipes: it is one, and there is no other. */
  lemma {:induction false} PlanCharacterized(
    pages: seq<PageInstruction>, recipes: seq<Recipe>, slug: string -> string)
    ensures pages == Plan(recipes, slug) <==> Describes(pages, recipes, slug) && Linked(pages)
  {
    PlanIsLinked(recipes, slug);
    if Describes(pages, recipes, slug) && Linked(pages) {
      LinkedDescriptionIsPlan(pages, recipes, slug);
    }
  }

  /** Each page's previous id is that of the recipe before it, `null` for
      the first. */
  lemma {:induction false} PreviousIdIsPredecessor(recipes: seq<Recipe>, slug: string -> string, i: nat)
    requires i < |recipes|
    ensures Plan(recipes, slug)[i].previousId == if i == 0 then None else Some(recipes[i - 1].id)
  {
    assert Plan(recipes, slug)[i] == PageAt(recipes, i, slug);
  }

  /** Each page's next id is that of the recipe after it, `null` for the last. */
  lemma {:induction false} NextIdIsSuccessor(recipes: seq<Recipe>, slug: string -> string, i: nat)
    requires i < |recipes|
    ensures Plan(recipes, slug)[i].nextId == if i == |recipes| - 1 then None else Some(recipes[i + 1].id)
  {
    assert Plan(recipes, slug)[i] == PageAt(recipes, i, slug);
  }

  /** A single recipe gets a page with neither neighbour. */
  lemma SingleRecipeHasNoNeighbours(r: Recipe, slug: string -> string)
    ensures Plan([r], slug) == [PageInstruction(PagePath(r.title, slug), r.id, None, None)]
  {
    assert Plan([r], slug)[0] == PageAt([r], 0, slug);
  }

  /** Two recipes with the same title get the same path: there is no
      disambiguation of colliding slugs. */
  lemma SameTitleSamePath(recipes: seq<Recipe>, slug: string -> string, i: nat, j: nat)
    requires i < |recipes| && j < |recipes|
    requires recipes[i].title == recipes[j].title
    ensures Plan(recipes, slug)[i].path == Plan(recipes, slug)[j].path
  {
  }

  /** Three recipes A, B, C are linked as [null, B], [A, C], [B, null]. */
  lemma ThreeRecipesLinked(a: Recipe, b: Recipe, c: Recipe, slug: string -> string)
    ensures var p := Plan([a, b, c], slug);
      p[0].previousId == None && p[0].nextId == Some(b.id) &&
      p[1].previousId == Some(a.id) && p[1].nextId == Some(c.id) &&
      p[2].previousId == Some(b.id) && p[2].nextId == None
  {
    var p := Plan([a, b, c], slug);
    assert p[0] == PageAt([a, b, c], 0, slug);
    assert p[1] == PageAt([a, b, c], 1, slug);
    assert p[2] == PageAt([a, b, c], 2, slug);
  }
}
