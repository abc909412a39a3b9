/** The product-creation form of the dashboard: the slug it derives from the name, the size
    checkboxes, the price inputs and the checks it makes before sending the form to
    `POST /api/products`. */
module ProductForm {
  import opened Wrappers
  import opened Schema
  import opened KgSchema
  import SeqUtil
  import ProductsCatalogue
  import ProductsRoute

  // ---------------------------------------------------------------------------------------
  // The slug

  /** `toLowerCase` on the ASCII letters. */
  function Lower(c: char): (r: char)
    ensures 'A' <= c <= 'Z' ==> r == (c as int + 32) as char && 'a' <= r <= 'z'
    ensures !('A' <= c <= 'Z') ==> r == c
  {
    if 'A' <= c <= 'Z' then (c as int + 32) as char else c
  }

  /** The characters of the regular-expression class `\s`. */
  predicate IsSpace(c: char) {
    var n := c as int;
    || (9 <= n <= 13) || n == 32 || n == 0xA0 || n == 0x1680 || (0x2000 <= n <= 0x200A)
    || n == 0x2028 || n == 0x2029 || n == 0x202F || n == 0x205F || n == 0x3000 || n == 0xFEFF
  }

  predicate SlugChar(c: char) { ('a' <= c <= 'z') || ('0' <= c <= '9') || c == '-' }

  /** What `[^a-z0-9\s-]` does not delete. */
  predicate Kept(c: char) { SlugChar(c) || IsSpace(c) }

  function LowerAll(s: string): (r: string)
    ensures |r| == |s| && forall i :: 0 <= i < |s| ==> r[i] == Lower(s[i])
  {
    seq(|s|, i requires 0 <= i < |s| => Lower(s[i]))
  }

  /** `.replace(/[^a-z0-9\s-]/g, "")`. */
  function KeepSlugChars(s: string): (r: string)
    ensures forall i :: 0 <= i < |r| ==> Kept(r[i])
    ensures forall c :: Kept(c) ==> multiset(r)[c] == multiset(s)[c]
  {
    SeqUtil.Filter(s, Kept)
  }

  /** `s` without its leading run of whitespace. */
  function DropSpaces(s: string): (r: string)
    ensures |r| <= |s|
  {
    if s != [] && IsSpace(s[0]) then DropSpaces(s[1..]) else s
  }

  /** What is left is a suffix of `s` that does not start with whitespace. */
  lemma {:induction false} DropSpacesShape(s: string)
    ensures var r := DropSpaces(s);
      |r| <= |s| && (r == [] || !IsSpace(r[0])) && r == s[|s| - |r|..]
  {
    if s != [] && IsSpace(s[0]) {
      DropSpacesShape(s[1..]);
    }
  }

  /** `.replace(/\s+/g, "-")`: every maximal run of whitespace becomes one '-'. */
  function Dashify(s: string): string
    decreases |s|
  {
    if s == [] then []
    else if IsSpace(s[0]) then ['-'] + Dashify(DropSpaces(s[1..]))
    else [s[0]] + Dashify(s[1..])
  }

  predicate NoSpaces(s: string) { forall i :: 0 <= i < |s| ==> !IsSpace(s[i]) }

  predicate AllKept(s: string) { forall i :: 0 <= i < |s| ==> Kept(s[i]) }

  predicate AllSlugChars(s: string) { forall i :: 0 <= i < |s| ==> SlugChar(s[i]) }

  lemma {:induction false} DashifyRemovesSpaces(s: string)
    ensures NoSpaces(Dashify(s))
    decreases |s|
  {
    if s != [] {
      var rest := if IsSpace(s[0]) then DropSpaces(s[1..]) else s[1..];
      DashifyRemovesSpaces(rest);
      var head := if IsSpace(s[0]) then '-' else s[0];
      assert Dashify(s) == [head] + Dashify(rest);
      assert !IsSpace(head);
    }
  }

  lemma {:induction false} DashifyKeepsSlugChars(s: string)
    requires AllKept(s)
    ensures AllSlugChars(Dashify(s))
    decreases |s|
  {
    if s != [] {
      var rest := if IsSpace(s[0]) then DropSpaces(s[1..]) else s[1..];
      DropSpacesShape(s[1..]);
      assert AllKept(rest) by {
        forall i | 0 <= i < |rest| ensures Kept(rest[i]) {
          assert rest[i] == s[|s| - |rest| + i];
        }
      }
      DashifyKeepsSlugChars(rest);
      var head := if IsSpace(s[0]) then '-' else s[0];
      assert Dashify(s) == [head] + Dashify(rest);
      assert SlugChar(head);
    }
  }

  /** A string without whitespace is left as it is. */
  lemma {:induction false} DashifyNoSpaces(s: string)
    requires NoSpaces(s)
    ensures Dashify(s) == s
    decreases |s|
  {
    if s != [] {
      DashifyNoSpaces(s[1..]);
    }
  }

  /** The slug handleInputChange derives from the name. The final `trim` has nothing left to
      remove once every whitespace run has become '-'. */
  function Slug(name: string): (slug: string)
    ensures AllSlugChars(slug)
  {
    var kept := KeepSlugChars(LowerAll(name));
    DashifyKeepsSlugChars(kept);
    Dashify(kept)
  }

  /** A slug is its own slug: the generator is idempotent. */
  lemma SlugIdempotent(name: string)
    ensures Slug(Slug(name)) == Slug(name)
  {
    var s := Slug(name);
    assert LowerAll(s) == s;
    assert AllKept(s);
    FilterAllKept(s);
    DashifyNoSpaces(s);
  }

  lemma {:induction false} FilterAllKept(s: string)
    requires AllKept(s)
    ensures KeepSlugChars(s) == s
  {
    if s != [] {
      FilterAllKept(s[1..]);
    }
  }

  /** An example: "Mate  Sur" becomes "mate-sur"; the run of two spaces gives one '-'. */
  lemma SlugExample()
    ensures Slug("Mate  Sur") == "mate-sur"
  {
    var lowered := LowerAll("Mate  Sur");
    assert lowered == "mate  sur" by {
      assert |lowered| == 9;
      assert lowered[0] == Lower('M') == 'm';
      assert lowered[6] == Lower('S') == 's';
    }
    assert AllKept(lowered);
    FilterAllKept(lowered);
    DashifyExample();
  }

  lemma DashifyExample()
    ensures Dashify("mate  sur") == "mate-sur"
  {
    assert "mate  sur" == "mate" + "  sur";
    DashifyPrefix("mate", "  sur");
    DashifyRunExample();
  }

  /** A leading stretch without whitespace is copied unchanged. */
  lemma {:induction false} DashifyPrefix(a: string, b: string)
    requires NoSpaces(a)
    ensures Dashify(a + b) == a + Dashify(b)
    decreases |a|
  {
    if a != [] {
      assert (a + b)[0] == a[0] && !IsSpace(a[0]);
      assert (a + b)[1..] == a[1..] + b;
      DashifyPrefix(a[1..], b);
      calc {
        Dashify(a + b);
        [a[0]] + Dashify(a[1..] + b);
        [a[0]] + (a[1..] + Dashify(b));
        { assert a == [a[0]] + a[1..]; }
        a + Dashify(b);
      }
    } else {
      assert a + b == b;
    }
  }

  lemma DashifyRunExample()
    ensures Dashify("  sur") == "-sur"
  {
    DashifyWordExample();
    DropSpacesExample();
    assert "  sur"[1..] == " sur";
  }

  lemma DashifyWordExample()
    ensures Dashify("sur") == "sur"
  {
    assert "sur"[1..] == "ur" && "ur"[1..] == "r";
  }

  lemma DropSpacesExample()
    ensures DropSpaces(" sur") == "sur"
  {
    assert " sur"[1..] == "sur";
  }

  // ---------------------------------------------------------------------------------------
  // The form state

  /** The error handleSubmit raises before sending, if any: name and slug, then sizes, then a
      selected size without a positive price. */
  function SubmitError(name: string, slug: string, sizes: seq<real>, prices: map<real, real>): (err: Option<string>)
    ensures err.None? <==>
      && name != "" && slug != "" && |sizes| > 0
      && forall i :: 0 <= i < |sizes| ==> ProductsCatalogue.PriceOrZero(prices, sizes[i]) > 0.0
  {
    if name == "" || slug == "" then Some(ProductsRoute.MissingNameOrSlug)
    else if |sizes| == 0 then Some(ProductsRoute.MissingSizes)
    else if exists i :: 0 <= i < |sizes| && ProductsCatalogue.PriceOrZero(prices, sizes[i]) <= 0.0
    then Some("Todos los tamaños seleccionados deben tener un precio")
    else None
  }

  class ProductFormState {
    var name: string
    var slug: string
    /** The other text fields of the form, by field name. */
    var fields: map<string, string>
    var availableSizes: seq<real>
    var pricesPerKg: map<real, real>

    /** The empty form: all four sizes ticked, every price zero. */
    constructor ()
      ensures name == "" && slug == "" && fields == map[]
      ensures availableSizes == [0.5, 1.0, 2.0, 3.0]
      ensures pricesPerKg == map[0.5 := 0.0, 1.0 := 0.0, 2.0 := 0.0, 3.0 := 0.0]
    {
      name, slug, fields := "", "", map[];
      availableSizes := [0.5, 1.0, 2.0, 3.0];
      pricesPerKg := map[0.5 := 0.0, 1.0 := 0.0, 2.0 := 0.0, 3.0 := 0.0];
    }

    /** handleInputChange: the field takes the value; editing the name also rewrites the slug. */
    method InputChange(field: string, value: string)
      modifies this
      ensures field == "name" ==> name == value && slug == Slug(value) && fields == old(fields)
      ensures field == "slug" ==> slug == value && name == old(name) && fields == old(fields)
      ensures field != "name" && field != "slug" ==>
        name == old(name) && slug == old(slug) && fields == old(fields)[field := value]
      ensures availableSizes == old(availableSizes) && pricesPerKg == old(pricesPerKg)
    {
      if field == "name" {
        name := value;
        slug := Slug(value);
      } else if field == "slug" {
        slug := value;
      } else {
        fields := fields[field := value];
      }
    }

    /** handleSizeChange: ticking appends the size, unticking removes every occurrence. */
    method SizeChange(size: real, checked: bool)
      modifies this`availableSizes
      ensures checked ==> availableSizes == old(availableSizes) + [size]
      ensures !checked ==> availableSizes == SeqUtil.Filter(old(availableSizes), s => s != size)
    {
      if checked {
        availableSizes := availableSizes + [size];
      } else {
        availableSizes := SeqUtil.Filter(availableSizes, s => s != size);
      }
    }

    /** handlePriceChange: `parsed` is what parseFloat made of the input, None when it is not a
        number; that reads as zero. */
    method PriceChange(size: real, parsed: Option<real>)
      modifies this`pricesPerKg
      ensures pricesPerKg == old(pricesPerKg)[size := parsed.GetOr(0.0)]
    {
      pricesPerKg := pricesPerKg[size := parsed.GetOr(0.0)];
    }

    function Error(): Option<string>
      reads this
    {
      SubmitError(name, slug, availableSizes, pricesPerKg)
    }
  }

  /** Unticking a size leaves it nowhere in the list and keeps every other size. */
  lemma UntickRemoves(sizes: seq<real>, size: real)
    ensures size !in SeqUtil.Filter(sizes, s => s != size)
    ensures forall t :: t != size ==> multiset(SeqUtil.Filter(sizes, s => s != size))[t] == multiset(sizes)[t]
  {
  }

  /** A form that passes its own checks is offered in every size it ticked: each of them has a
      positive price that getPriceForSize returns. */
  lemma SubmittedFormPricesEverySize(name: string, slug: string, sizes: seq<real>, prices: map<real, real>,
                                     status: Option<ProductStatus>, isFeatured: Option<bool>, id: ProductId)
    requires SubmitError(name, slug, sizes, prices).None?
    ensures var body := ProductsRoute.ProductRequest(Some(name), Some(slug), status, isFeatured, Some(sizes), Some(prices));
      var p := ProductsRoute.NewProduct(body, id);
      forall i :: 0 <= i < |sizes| ==>
        && ProductsCatalogue.PriceForSize(p, sizes[i]).Some? && ProductsCatalogue.PriceForSize(p, sizes[i]).value > 0.0
        && ProductsCatalogue.SizePrice(sizes[i], prices[sizes[i]]) in ProductsCatalogue.SizesWithPrices(p)
  {
    var body := ProductsRoute.ProductRequest(Some(name), Some(slug), status, isFeatured, Some(sizes), Some(prices));
    var p := ProductsRoute.NewProduct(body, id);
    forall i | 0 <= i < |sizes|
      ensures ProductsCatalogue.SizePrice(sizes[i], prices[sizes[i]]) in ProductsCatalogue.SizesWithPrices(p)
    {
      ProductsCatalogue.SizesWithPricesMembers(p, ProductsCatalogue.SizePrice(sizes[i], prices[sizes[i]]));
    }
  }
}
