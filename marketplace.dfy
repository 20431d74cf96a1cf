/** The marketplace page: the asset filter, the total-value badge and the
    buy / verify / purchase handlers that drive the verification dialog. */
module Marketplace {
  import opened Common
  import opened Digits
  import opened Text
  import ConnectWallet

  /** An asset card's data. Prices and supplies are whole numbers here. */
  datatype Asset = Asset(
    id: string, title: string, description: string, price: int, category: string,
    location: string, image: string, tokenSupply: int, tokensSold: int)

  /** The three filter controls: search box, category select, price select. */
  datatype Filters = Filters(searchTerm: string, selectedCategory: string, priceRange: string)

  /** Case-insensitive search in the title or the description. */
  predicate MatchesSearch(asset: Asset, searchTerm: string)
  {
    Includes(ToLower(asset.title), ToLower(searchTerm))
    || Includes(ToLower(asset.description), ToLower(searchTerm))
  }

  predicate MatchesCategory(asset: Asset, selectedCategory: string)
  {
    selectedCategory == "all" || asset.category == selectedCategory
  }

  /** `price >= parseInt(bound)` and `price <= parseInt(bound)`: a comparison
      with `NaN` is false. */
  predicate AtLeast(price: int, bound: Option<int>)
  {
    bound.Some? && price >= bound.value
  }

  predicate AtMost(price: int, bound: Option<int>)
  {
    bound.Some? && price <= bound.value
  }

  /** The price-range select's value split at `-`, each piece without its
      first `+`; a second piece that is missing or empty leaves the range
      open above. */
  predicate MatchesPrice(price: int, priceRange: string)
  {
    if priceRange == "all" then true
    else
      var parts := Split(priceRange, '-');
      var min := RemoveFirst(parts[0], '+');
      if |parts| >= 2 && RemoveFirst(parts[1], '+') != "" then
        AtLeast(price, ParseInt(min)) && AtMost(price, ParseInt(RemoveFirst(parts[1], '+')))
      else
        AtLeast(price, ParseInt(min))
  }

  predicate Matches(asset: Asset, filters: Filters)
  {
    MatchesSearch(asset, filters.searchTerm)
    && MatchesCategory(asset, filters.selectedCategory)
    && MatchesPrice(asset.price, filters.priceRange)
  }

  /** `assets.filter(...)`: the matching assets in their original order. */
  function FilteredAssets(assets: seq<Asset>, filters: Filters): (r: seq<Asset>)
    ensures |r| <= |assets|
    ensures forall a :: a in r <==> a in assets && Matches(a, filters)
  {
    if assets == [] then []
    else (if Matches(assets[0], filters) then [assets[0]] else []) + FilteredAssets(assets[1..], filters)
  }

  /** Filtering a concatenation filters each part and keeps them in order,
      so the result is the subsequence of matching assets. */
  lemma {:induction false} FilteredAssetsAppend(a: seq<Asset>, b: seq<Asset>, filters: Filters)
    ensures FilteredAssets(a + b, filters) == FilteredAssets(a, filters) + FilteredAssets(b, filters)
    decreases |a|
  {
    if a == [] {
      assert a + b == b;
    } else {
      assert (a + b)[1..] == a[1..] + b;
      FilteredAssetsAppend(a[1..], b, filters);
    }
  }

  /** An empty search term matches every asset, whatever its text. */
  lemma EmptySearchMatchesAll(asset: Asset)
    ensures MatchesSearch(asset, "")
  {
    assert ToLower("") == "";
    assert StartsWith(ToLower(asset.title), "");
  }

  /** The search matches exactly when the lower-cased term occurs in the
      lower-cased title or description. */
  lemma SearchMeaning(asset: Asset, searchTerm: string)
    ensures MatchesSearch(asset, searchTerm)
            <==> (exists i :: OccursAt(ToLower(asset.title), ToLower(searchTerm), i))
                 || (exists i :: OccursAt(ToLower(asset.description), ToLower(searchTerm), i))
  {
    IncludesMeaning(ToLower(asset.title), ToLower(searchTerm));
    IncludesMeaning(ToLower(asset.description), ToLower(searchTerm));
  }

  /** What the price-range values mean: `"all"` keeps everything, `"lo-hi"`
      keeps `lo <= price <= hi` (both ends included) and `"lo+"` keeps
      `price >= lo`. */
  lemma PriceRangeMeaning(price: int, lo: nat, hi: nat)
    ensures MatchesPrice(price, "all")
    ensures MatchesPrice(price, Decimal(lo) + "-" + Decimal(hi)) <==> lo <= price <= hi
    ensures MatchesPrice(price, Decimal(lo) + "+") <==> lo <= price
  {
    var l, h := Decimal(lo), Decimal(hi);
    ToBaseRoundTrip(lo, 10);
    ToBaseRoundTrip(hi, 10);
    DigitsExclude(l, 10, '-');
    DigitsExclude(h, 10, '-');
    DigitsExclude(l, 10, '+');
    DigitsExclude(h, 10, '+');
    ParseIntDecimal(lo);
    ParseIntDecimal(hi);
    assert IsDigit(l[0], 10);

    var between := l + "-" + h;
    assert between[0] == l[0];
    assert between != "all" by { assert !IsDigit('a', 10); }
    SplitPair(l, h, '-');
    assert l + ['-'] + h == between;
    IndexOfFirst(l, '+', |l|);
    IndexOfFirst(h, '+', |h|);
    assert h != "";

    var from := l + "+";
    assert from[0] == l[0];
    assert from != "all" by { assert !IsDigit('a', 10); }
    assert '-' !in from;
    SplitWithout(from, '-');
    assert IndexOf(from, '+') == |l| by {
      assert forall k :: 0 <= k < |l| ==> from[k] == l[k] && l[k] != '+';
      assert from[|l|] == '+';
      IndexOfFirst(from, '+', |l|);
    }
    assert RemoveFirst(from, '+') == l by {
      assert from[..|l|] == l;
      assert from[|l| + 1..] == "";
    }
  }

  /** An asset's share of the badge: `price * tokenSupply`. */
  function Worth(asset: Asset): int
  {
    asset.price * asset.tokenSupply
  }

  /** `assets.reduce((sum, a) => sum + a.price * a.tokenSupply, 0)`, folded
      from the left as `reduce` does. */
  function TotalValue(assets: seq<Asset>): (total: int)
    ensures assets == [] ==> total == 0
    ensures (forall i :: 0 <= i < |assets| ==> Worth(assets[i]) >= 0) ==> total >= 0
  {
    if assets == [] then 0 else TotalValue(assets[..|assets| - 1]) + Worth(assets[|assets| - 1])
  }

  /** The worth of the assets the filters keep, summed from the right:
      an independent statement of what the badge shows. */
  function KeptWorth(assets: seq<Asset>, filters: Filters): int
  {
    if assets == [] then 0
    else (if Matches(assets[0], filters) then Worth(assets[0]) else 0) + KeptWorth(assets[1..], filters)
  }

  lemma {:induction false} TotalValueCons(asset: Asset, rest: seq<Asset>)
    ensures TotalValue([asset] + rest) == Worth(asset) + TotalValue(rest)
    decreases |rest|
  {
    if rest != [] {
      var s := [asset] + rest;
      assert s[..|s| - 1] == [asset] + rest[..|rest| - 1];
      TotalValueCons(asset, rest[..|rest| - 1]);
    } else {
      assert [asset] + rest == [asset];
      assert [asset][..0] == [];
    }
  }

  /** The total-value badge is the sum of `price * tokenSupply` over exactly
      the assets the filters keep. */
  lemma {:induction false} BadgeTotal(assets: seq<Asset>, filters: Filters)
    ensures TotalValue(FilteredAssets(assets, filters)) == KeptWorth(assets, filters)
    decreases |assets|
  {
    if assets != [] {
      BadgeTotal(assets[1..], filters);
      var rest := FilteredAssets(assets[1..], filters);
      if Matches(assets[0], filters) {
        TotalValueCons(assets[0], rest);
      } else {
        assert [] + rest == rest;
      }
    }
  }

  /** `assets.find(a => a.id === assetId)`: the first asset with that id. */
  function FindAsset(assets: seq<Asset>, assetId: string): (r: Option<Asset>)
    ensures r.None? <==> forall i :: 0 <= i < |assets| ==> assets[i].id != assetId
    ensures r.Some? ==> exists i :: 0 <= i < |assets| && assets[i] == r.value && r.value.id == assetId
                                   && forall j :: 0 <= j < i ==> assets[j].id != assetId
  {
    if assets == [] then None
    else if assets[0].id == assetId then Some(assets[0])
    else
      var r := FindAsset(assets[1..], assetId);
      assert r.Some? ==> exists i :: 0 <= i < |assets[1..]| && assets[1..][i] == r.value
                                   && forall j :: 0 <= j < i ==> assets[1..][j].id != assetId;
      r
  }

  /** The dialog's user-address line, written out again on the page: it is
      the wallet button's abbreviation, or "Not Connected" without an
      address. */
  function AddressLabel(address: string): (shown: string)
    ensures address == [] ==> shown == "Not Connected"
    ensures address != [] ==> shown == ConnectWallet.FormatAddress(address)
  {
    if address == [] then "Not Connected"
    else address[..ConnectWallet.Min(6, |address|)] + "..." + address[ConnectWallet.Max(|address| - 4, 0)..]
  }

  /** A toast: its title, its text and whether it is the destructive (error)
      variant. */
  datatype Toast = Toast(title: string, description: string, destructive: bool)

  const VerificationFailedTitle := "Verification Failed"
  const VerificationFailedText := "Please try again or contact support if the issue persists."

  /** The page's state: the asset list and the verification dialog. */
  class MarketplacePage {
    var assets: seq<Asset>
    var showVerificationModal: bool
    var isVerified: bool
    var selectedAsset: Option<Asset>

    constructor (initialAssets: seq<Asset>)
      ensures assets == initialAssets
      ensures !showVerificationModal && !isVerified && selectedAsset == None
    {
      assets := initialAssets;
      showVerificationModal := false;
      isVerified := false;
      selectedAsset := None;
    }

    /** The dialog's Buy Now button is enabled exactly when verified. */
    function BuyNowEnabled(): (enabled: bool)
      reads this
      ensures enabled <==> isVerified
    {
      isVerified
    }

    /** A card's Buy button. Without a connected wallet nothing changes;
        otherwise the asset is selected, verification starts over and the
        dialog opens. */
    method HandleBuy(assetId: string, isConnected: bool)
      modifies this
      ensures assets == old(assets)
      ensures !isConnected ==>
                showVerificationModal == old(showVerificationModal) && isVerified == old(isVerified)
                && selectedAsset == old(selectedAsset)
      ensures isConnected ==>
                selectedAsset == FindAsset(assets, assetId) && !isVerified && showVerificationModal
    {
      if !isConnected {
        return;
      }
      selectedAsset := FindAsset(assets, assetId);
      isVerified := false;
      showVerificationModal := true;
    }

    /** The identity check reported success: the only way Buy Now becomes
        enabled. */
    method HandleSuccessfulVerification()
      modifies this`isVerified
      ensures BuyNowEnabled()
    {
      isVerified := true;
    }

    /** The identity check reported an error: a destructive notice and
        nothing else; the page's state, Buy Now included, stays as it was. */
    method HandleVerificationError() returns (toast: Toast)
      ensures toast == Toast(VerificationFailedTitle, VerificationFailedText, true)
    {
      toast := Toast(VerificationFailedTitle, VerificationFailedText, true);
    }

    /** The dialog asks to open or close (overlay click, escape key); the
        verification flag is left as it is. */
    method SetModalOpen(open: bool)
      modifies this`showVerificationModal
      ensures showVerificationModal == open
    {
      showVerificationModal := open;
    }

    /** Buy Now: closes the dialog, drops the selection and resets the
        verification. No contract call is made here. */
    method HandlePurchase()
      modifies this
      ensures assets == old(assets)
      ensures !showVerificationModal && selectedAsset == None && !isVerified
    {
      showVerificationModal := false;
      selectedAsset := None;
      isVerified := false;
    }

    /** A click on Buy Now reaches `HandlePurchase` only while enabled. */
    method ClickBuyNow()
      modifies this
      ensures assets == old(assets)
      ensures old(BuyNowEnabled()) ==> !showVerificationModal && selectedAsset == None && !isVerified
      ensures !old(BuyNowEnabled()) ==>
                showVerificationModal == old(showVerificationModal) && selectedAsset == old(selectedAsset) && !isVerified
    {
      if BuyNowEnabled() {
        HandlePurchase();
      }
    }
  }
}
