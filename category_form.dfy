/** The admin category form (`components/admin/CategoryForm.tsx`): its initial
    data, the slug derived from the name, the order field's parse, and the
    choice between creating and updating. */
module CategoryForm {
  import opened Common

  /** A category as the admin pages pass it in. */
  datatype Category = Category(
    id: int,
    name: string,
    slug: string,
    description: Option<string>,
    icon: Option<string>,
    order: int,
    isActive: bool)

  /** The form's data record. */
  datatype FormData = FormData(
    name: string,
    slug: string,
    description: string,
    icon: string,
    order: int,
    isActive: bool)

  /** The characters a slug keeps: `[a-z0-9]`. */
  predicate IsSlugChar(c: char) {
    'a' <= c <= 'z' || '0' <= c <= '9'
  }

  /** `.replace(/[^a-z0-9]+/g, '-')`: every maximal run of characters outside
      `[a-z0-9]` becomes one `-`. Read from the end: a separator after a
      separator adds nothing. */
  function Collapse(s: string): (r: string)
    ensures r == [] <==> s == []
    ensures r != [] ==> (r[|r| - 1] == '-' <==> !IsSlugChar(s[|s| - 1]))
  {
    if s == [] then []
    else
      var prefix := Collapse(s[..|s| - 1]);
      var c := s[|s| - 1];
      if IsSlugChar(c) then prefix + [c]
      else if prefix != [] && prefix[|prefix| - 1] == '-' then prefix
      else prefix + ['-']
  }

  /** `.replace(/^-|-$/g, '')`: one leading and one trailing `-` removed. */
  function Trim(t: string): string {
    var a := if t != [] && t[0] == '-' then t[1..] else t;
    if a != [] && a[|a| - 1] == '-' then a[..|a| - 1] else a
  }

  /** The slug derived from a name. */
  function Slugify(name: string): string {
    Trim(Collapse(ToLower(name)))
  }

  /** Only `[a-z0-9]` and `-`, and no `--`. */
  predicate Dashed(t: string) {
    && (forall k :: 0 <= k < |t| ==> IsSlugChar(t[k]) || t[k] == '-')
    && (forall k :: 0 <= k < |t| - 1 ==> !(t[k] == '-' && t[k + 1] == '-'))
  }

  /** A well-formed slug: dashed, and not starting or ending with `-`. */
  predicate IsSlug(t: string) {
    Dashed(t) && (t != [] ==> t[0] != '-' && t[|t| - 1] != '-')
  }

  lemma {:induction false} CollapseIsDashed(s: string)
    ensures Dashed(Collapse(s))
  {
    if s != [] {
      CollapseIsDashed(s[..|s| - 1]);
    }
  }

  lemma TrimOfDashed(t: string)
    requires Dashed(t)
    ensures IsSlug(Trim(t))
  {
    var a := if t != [] && t[0] == '-' then t[1..] else t;
    assert Dashed(a) by {
      if t != [] && t[0] == '-' {
        forall k | 0 <= k < |a| - 1 ensures !(a[k] == '-' && a[k + 1] == '-') {
          assert a[k] == t[k + 1] && a[k + 1] == t[k + 2];
        }
      }
    }
    assert a != [] ==> a[0] != '-' by {
      if t != [] && t[0] == '-' && a != [] {
        assert a[0] == t[1];
      }
    }
  }

  /** A derived slug has only `[a-z0-9-]`, no `--`, and no `-` at either end. */
  lemma SlugifyIsSlug(name: string)
    ensures IsSlug(Slugify(name))
  {
    CollapseIsDashed(ToLower(name));
    TrimOfDashed(Collapse(ToLower(name)));
  }

  lemma {:induction false} ToLowerOfDashed(t: string)
    requires forall k :: 0 <= k < |t| ==> IsSlugChar(t[k]) || t[k] == '-'
    ensures ToLower(t) == t
  {
    if t != [] {
      ToLowerOfDashed(t[1..]);
      assert t == [t[0]] + t[1..];
    }
  }

  lemma {:induction false} CollapseOfDashed(t: string)
    requires Dashed(t)
    ensures Collapse(t) == t
  {
    if t != [] {
      var n := |t| - 1;
      var prefix := t[..n];
      assert Dashed(prefix);
      CollapseOfDashed(prefix);
      assert t == prefix + [t[n]];
      if !IsSlugChar(t[n]) && prefix != [] {
        assert t[n - 1] != '-';
      }
    }
  }

  /** Deriving a slug from a derived slug changes nothing. */
  lemma SlugifyIdempotent(name: string)
    ensures Slugify(Slugify(name)) == Slugify(name)
  {
    var t := Slugify(name);
    SlugifyIsSlug(name);
    ToLowerOfDashed(t);
    CollapseOfDashed(t);
  }

  /** The form's first data: the category's values when editing, with a
      missing description or icon as `''`, and for a new category empty
      texts, order 0 and active. */
  function InitialData(category: Option<Category>): (d: FormData)
    ensures category.None? ==> d == FormData("", "", "", "", 0, true)
    ensures category.Some? ==> d == FormData(category.value.name, category.value.slug,
      StrOr(category.value.description, ""), StrOr(category.value.icon, ""),
      category.value.order, category.value.isActive)
  {
    FormData(
      if category.Some? then category.value.name else "",
      if category.Some? then category.value.slug else "",
      if category.Some? then StrOr(category.value.description, "") else "",
      if category.Some? then StrOr(category.value.icon, "") else "",
      if category.Some? && category.value.order != 0 then category.value.order else 0,
      if category.Some? then category.value.isActive else true)
  }

  /** `parseInt(value) || 0`: text without a leading number reads as 0. */
  function ParseOrder(input: string): (n: int)
    ensures ParseInt(input).None? ==> n == 0
    ensures ParseInt(input).Some? ==> n == ParseInt(input).value
  {
    var parsed := ParseInt(input);
    if parsed.Some? && parsed.value != 0 then parsed.value else 0
  }

  datatype Request = Request(httpMethod: string, url: string)

  const CategoriesUrl: string := "/api/admin/categories"

  /** Where the form is sent: PUT to the category's own URL when editing,
      POST to the collection when creating. */
  function SaveTarget(category: Option<Category>): (r: Request)
    ensures category.None? ==> r == Request("POST", CategoriesUrl)
    ensures category.Some? ==> r.httpMethod == "PUT" && r.url == CategoriesUrl + "/" + IntToString(category.value.id)
  {
    if category.Some? then Request("PUT", CategoriesUrl + "/" + IntToString(category.value.id))
    else Request("POST", CategoriesUrl)
  }

  /** The id in an update's URL reads back as the category's id. */
  lemma SaveTargetNamesCategory(category: Category)
    ensures var url := SaveTarget(Some(category)).url;
            |url| > |CategoriesUrl| + 1 && ParseInt(url[|CategoriesUrl| + 1..]) == Some(category.id)
  {
    var url := SaveTarget(Some(category)).url;
    assert url[|CategoriesUrl| + 1..] == IntToString(category.id);
    ParseIntRoundTrip(category.id);
  }

  class CategoryEditor {
    const category: Option<Category>
    var formData: FormData

    constructor (category: Option<Category>)
      ensures this.category == category && formData == InitialData(category)
    {
      this.category := category;
      formData := InitialData(category);
    }

    /** `handleNameChange`: the name is replaced, and the slug is the edited
        category's own when it has one, else derived from the new name. */
    method HandleNameChange(name: string)
      modifies this
      ensures formData == old(formData).(name := name, slug := formData.slug)
      ensures category.Some? && category.value.slug != "" ==> formData.slug == category.value.slug
      ensures !(category.Some? && category.value.slug != "") ==> formData.slug == Slugify(name)
      ensures IsSlug(formData.slug) || (category.Some? && formData.slug == category.value.slug)
    {
      var slug := if category.Some? && category.value.slug != "" then category.value.slug else Slugify(name);
      formData := formData.(name := name, slug := slug);
      SlugifyIsSlug(name);
    }

    /** The order input's `onChange`. */
    method OnOrderInput(input: string)
      modifies this
      ensures formData == old(formData).(order := ParseOrder(input))
    {
      formData := formData.(order := ParseOrder(input));
    }
  }
}
