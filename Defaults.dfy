/** The "fill if unset" setters of ecommerce/defaults.go. Each Go function
    receives a pointer to one option (or the context map) and writes its
    default there only when the current value is the zero value. Here the
    options the pointers point into are the fields of `Options`, and each
    setter's `modifies` clause names the one field it may write. */
module Defaults {
  import opened Json

  const DOMAIN_COM: string := "com"
  const UA_DESKTOP: string := "desktop"
  const DEFAULT_START_PAGE: int := 1
  const DEFAULT_PAGES: int := 1
  const DEFAULT_LIMIT: int := 48
  const DEFAULT_SORT_BY: string := "r"

  /** The value a numeric setter leaves behind. */
  function FillInt(v: int, default: int): int
  {
    if v == 0 then default else v
  }

  /** The value a string setter leaves behind. */
  function FillString(v: string, default: string): string
  {
    if v == "" then default else v
  }

  /** The context a `SetDefaultSortBy` call leaves behind. The context's
      value type is declared outside ecommerce/defaults.go; it is taken to be
      `interface{}`, so a missing key reads as `nil`, which is not `""`, and
      only a stored empty string is replaced. (Were it `string`, a missing
      key would read as `""` and get the default too.) */
  function FillSortBy(ctx: Map): Map
  {
    if Get(ctx, "sort_by") == Str("") then ctx["sort_by" := Str(DEFAULT_SORT_BY)] else ctx
  }

  /** The option fields the setters are pointed at. */
  class Options {
    var Domain: string
    var StartPage: int
    var Pages: int
    var Limit: int
    var UserAgent: string

    constructor (domain: string, startPage: int, pages: int, limit: int, userAgent: string)
      ensures Domain == domain && StartPage == startPage && Pages == pages
      ensures Limit == limit && UserAgent == userAgent
    {
      Domain, StartPage, Pages, Limit := domain, startPage, pages, limit;
      UserAgent := userAgent;
    }
  }

  /** A context map, shared by reference as Go maps are. */
  class Context {
    var entries: Map

    constructor (entries: Map)
      ensures this.entries == entries
    {
      this.entries := entries;
    }
  }

  method SetDefaultSortBy(ctx: Context)
    modifies ctx`entries
    ensures ctx.entries == FillSortBy(old(ctx.entries))
    ensures forall k :: k != "sort_by" ==> Get(ctx.entries, k) == Get(old(ctx.entries), k)
  {
    if Get(ctx.entries, "sort_by") == Str("") {
      ctx.entries := ctx.entries["sort_by" := Str(DEFAULT_SORT_BY)];
    }
  }

  method SetDefaultDomain(opt: Options)
    modifies opt`Domain
    ensures opt.Domain == FillString(old(opt.Domain), DOMAIN_COM)
  {
    if opt.Domain == "" {
      opt.Domain := DOMAIN_COM;
    }
  }

  method SetDefaultStartPage(opt: Options)
    modifies opt`StartPage
    ensures opt.StartPage == FillInt(old(opt.StartPage), DEFAULT_START_PAGE)
  {
    if opt.StartPage == 0 {
      opt.StartPage := DEFAULT_START_PAGE;
    }
  }

  method SetDefaultPages(opt: Options)
    modifies opt`Pages
    ensures opt.Pages == FillInt(old(opt.Pages), DEFAULT_PAGES)
  {
    if opt.Pages == 0 {
      opt.Pages := DEFAULT_PAGES;
    }
  }

  method SetDefaultLimit(opt: Options)
    modifies opt`Limit
    ensures opt.Limit == FillInt(old(opt.Limit), DEFAULT_LIMIT)
  {
    if opt.Limit == 0 {
      opt.Limit := DEFAULT_LIMIT;
    }
  }

  method SetDefaultUserAgent(opt: Options)
    modifies opt`UserAgent
    ensures opt.UserAgent == FillString(old(opt.UserAgent), UA_DESKTOP)
  {
    if opt.UserAgent == "" {
      opt.UserAgent := UA_DESKTOP;
    }
  }

  /** A setter writes its default exactly when the value was the zero value,
      keeps any other value, and leaves a non-zero value behind. */
  lemma FillIntSpec(v: int, default: int)
    requires default != 0
    ensures FillInt(v, default) != 0
    ensures v != 0 ==> FillInt(v, default) == v
    ensures v == 0 ==> FillInt(v, default) == default
  {
  }

  lemma FillStringSpec(v: string, default: string)
    requires default != ""
    ensures FillString(v, default) != ""
    ensures v != "" ==> FillString(v, default) == v
    ensures v == "" ==> FillString(v, default) == default
  {
  }

  /** Running a setter a second time changes nothing. */
  lemma FillIdempotent(v: int, s: string, default: int, defaultS: string, ctx: Map)
    requires default != 0 && defaultS != ""
    ensures FillInt(FillInt(v, default), default) == FillInt(v, default)
    ensures FillString(FillString(s, defaultS), defaultS) == FillString(s, defaultS)
    ensures FillSortBy(FillSortBy(ctx)) == FillSortBy(ctx)
  {
  }

  /** After the numeric setters no value is zero; a value that was not
      negative is at least 1. A negative value is kept as it is. */
  lemma NumericDefaultsNonZero(startPage: int, pages: int, limit: int)
    ensures FillInt(startPage, DEFAULT_START_PAGE) != 0
    ensures FillInt(pages, DEFAULT_PAGES) != 0
    ensures FillInt(limit, DEFAULT_LIMIT) != 0
    ensures startPage >= 0 ==> FillInt(startPage, DEFAULT_START_PAGE) >= 1
    ensures pages >= 0 ==> FillInt(pages, DEFAULT_PAGES) >= 1
    ensures limit >= 0 ==> FillInt(limit, DEFAULT_LIMIT) >= 1
    ensures startPage < 0 ==> FillInt(startPage, DEFAULT_START_PAGE) == startPage
    ensures pages < 0 ==> FillInt(pages, DEFAULT_PAGES) == pages
    ensures limit < 0 ==> FillInt(limit, DEFAULT_LIMIT) == limit
  {
  }

  /** `SetDefaultSortBy` touches only "sort_by", sets it to "r" only over a
      stored empty string, and never adds the key when it is missing. */
  lemma FillSortBySpec(ctx: Map)
    ensures forall k :: k != "sort_by" ==> Get(FillSortBy(ctx), k) == Get(ctx, k)
    ensures "sort_by" !in ctx ==> FillSortBy(ctx) == ctx
    ensures Get(ctx, "sort_by") == Str("") ==> Get(FillSortBy(ctx), "sort_by") == Str("r")
    ensures Get(ctx, "sort_by") != Str("") ==> FillSortBy(ctx) == ctx
  {
  }
}
