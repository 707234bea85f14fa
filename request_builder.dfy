/**
 * Builds the outbound request: the fulfillment-messages URL with its query
 * parameters, and the header set that reproduces one desktop Chrome
 * browser.
 */
module RequestBuilder {
  import opened Wrappers
  import opened Text
  import opened Domain

  const FulfillmentPath := "/shop/fulfillment-messages"
  const RefererPath := "/shop/buy-iphone/iphone-17-pro"
  const UserAgent :=
    "Mozilla/5.0 (Macintosh; Intel Mac OS X 10_15_7) AppleWebKit/537.36 (KHTML, like Gecko) Chrome/143.0.0.0 Safari/537.36"

  /** The ten header names sent on every request. */
  const FixedHeaderNames: set<string> := {
    "User-Agent", "Referer", "Accept", "Accept-Language",
    "sec-ch-ua", "sec-ch-ua-mobile", "sec-ch-ua-platform",
    "Sec-Fetch-Dest", "Sec-Fetch-Mode", "Sec-Fetch-Site"
  }

  /** The fulfillment-messages URL for one device at one location. */
  function FulfillmentUrl(baseCountryUrl: string, deviceCode: string, location: string): (u: Url)
    ensures u.prefix == baseCountryUrl + FulfillmentPath
    ensures u.query.Keys == {"pl", "mts.0", "parts.0", "location"}
    ensures u.query["pl"] == "true" && u.query["mts.0"] == "regular"
    ensures u.query["parts.0"] == deviceCode && u.query["location"] == location
  {
    Url(baseCountryUrl + FulfillmentPath,
        map["pl" := "true", "mts.0" := "regular", "parts.0" := deviceCode, "location" := location])
  }

  /** The ten headers that do not depend on the cookie. */
  function FixedHeaders(baseCountryUrl: string): map<string, string> {
    map[
      "User-Agent" := UserAgent,
      "Referer" := baseCountryUrl + RefererPath,
      "Accept" := "*/*",
      "Accept-Language" := "zh-CN,zh-TW;q=0.9",
      "sec-ch-ua" := "\"Google Chrome\";v=\"143\"",
      "sec-ch-ua-mobile" := "?0",
      "sec-ch-ua-platform" := "\"macOS\"",
      "Sec-Fetch-Dest" := "empty",
      "Sec-Fetch-Mode" := "cors",
      "Sec-Fetch-Site" := "same-origin"]
  }

  /** The header set the request carries, as a value. */
  function BrowserHeaders(baseCountryUrl: string, cookie: Option<string>): map<string, string> {
    var fixed := FixedHeaders(baseCountryUrl);
    if IsBlank(cookie) then fixed else fixed["Cookie" := cookie.value]
  }

  /** The first five fixed names are distinct. */
  lemma LeadingHeaderCount()
    ensures |{"User-Agent", "Referer", "Accept", "Accept-Language", "sec-ch-ua"}| == 5
  {
    var s1: set<string> := {"User-Agent"};
    var s2 := s1 + {"Referer"}; assert "Referer" !in s1;
    var s3 := s2 + {"Accept"}; assert "Accept" !in s2;
    var s4 := s3 + {"Accept-Language"}; assert "Accept-Language" !in s3;
    var s5 := s4 + {"sec-ch-ua"}; assert "sec-ch-ua" !in s4;
    assert s5 == {"User-Agent", "Referer", "Accept", "Accept-Language", "sec-ch-ua"};
  }

  /** The last five fixed names are distinct. */
  lemma TrailingHeaderCount()
    ensures |{"sec-ch-ua-mobile", "sec-ch-ua-platform", "Sec-Fetch-Dest", "Sec-Fetch-Mode", "Sec-Fetch-Site"}| == 5
  {
    var s1: set<string> := {"sec-ch-ua-mobile"};
    var s2 := s1 + {"sec-ch-ua-platform"}; assert "sec-ch-ua-platform" !in s1;
    var s3 := s2 + {"Sec-Fetch-Dest"}; assert "Sec-Fetch-Dest" !in s2;
    var s4 := s3 + {"Sec-Fetch-Mode"}; assert "Sec-Fetch-Mode" !in s3;
    var s5 := s4 + {"Sec-Fetch-Site"}; assert "Sec-Fetch-Site" !in s4;
    assert s5 == {"sec-ch-ua-mobile", "sec-ch-ua-platform", "Sec-Fetch-Dest", "Sec-Fetch-Mode", "Sec-Fetch-Site"};
  }

  /** The ten fixed names are distinct. */
  lemma FixedHeaderCount()
    ensures |FixedHeaderNames| == 10
  {
    var leading: set<string> := {"User-Agent", "Referer", "Accept", "Accept-Language", "sec-ch-ua"};
    var trailing: set<string> := {"sec-ch-ua-mobile", "sec-ch-ua-platform", "Sec-Fetch-Dest", "Sec-Fetch-Mode", "Sec-Fetch-Site"};
    LeadingHeaderCount();
    TrailingHeaderCount();
    assert leading !! trailing;
    assert FixedHeaderNames == leading + trailing;
  }

  lemma FixedHeaderKeys(baseCountryUrl: string)
    ensures FixedHeaders(baseCountryUrl).Keys == FixedHeaderNames
  {
  }

  /**
   * The header set always holds the ten fixed names, plus `Cookie` exactly
   * when the configured cookie is not blank.
   */
  lemma BrowserHeadersKeys(baseCountryUrl: string, cookie: Option<string>)
    ensures BrowserHeaders(baseCountryUrl, cookie).Keys
            == FixedHeaderNames + (if IsBlank(cookie) then {} else {"Cookie"})
  {
    FixedHeaderKeys(baseCountryUrl);
  }

  lemma CookieNotFixed()
    ensures "Cookie" !in FixedHeaderNames
  {
  }

  /** Ten headers without a cookie, eleven with one. */
  lemma BrowserHeadersCount(baseCountryUrl: string, cookie: Option<string>)
    ensures |BrowserHeaders(baseCountryUrl, cookie)| == if IsBlank(cookie) then 10 else 11
  {
    var h := BrowserHeaders(baseCountryUrl, cookie);
    BrowserHeadersKeys(baseCountryUrl, cookie);
    FixedHeaderCount();
    assert |h| == |h.Keys|;
    if !IsBlank(cookie) {
      CookieNotFixed();
      assert |FixedHeaderNames + {"Cookie"}| == |FixedHeaderNames| + 1;
    }
  }

  /**
   * The referer points at the country's iPhone 17 Pro page, the agent is
   * the fixed Chrome string, and a cookie header carries the configured
   * cookie verbatim.
   */
  lemma BrowserHeadersValues(baseCountryUrl: string, cookie: Option<string>)
    ensures var h := BrowserHeaders(baseCountryUrl, cookie);
            && "Referer" in h && h["Referer"] == baseCountryUrl + RefererPath
            && "User-Agent" in h && h["User-Agent"] == UserAgent
            && ("Cookie" in h ==> h["Cookie"] == cookie.value)
  {
    assert "Cookie" !in FixedHeaders(baseCountryUrl);
  }

  /**
   * Fills a fresh header map one entry at a time. `productCode` is taken
   * and ignored, as in the source.
   */
  method BuildHeaders(baseCountryUrl: string, productCode: string, cookie: Option<string>)
    returns (headers: map<string, string>)
    ensures headers == BrowserHeaders(baseCountryUrl, cookie)
  {
    headers := map[];
    headers := headers["User-Agent" := UserAgent];
    headers := headers["Referer" := baseCountryUrl + RefererPath];
    headers := headers["Accept" := "*/*"];
    headers := headers["Accept-Language" := "zh-CN,zh-TW;q=0.9"];
    headers := headers["sec-ch-ua" := "\"Google Chrome\";v=\"143\""];
    headers := headers["sec-ch-ua-mobile" := "?0"];
    headers := headers["sec-ch-ua-platform" := "\"macOS\""];
    headers := headers["Sec-Fetch-Dest" := "empty"];
    headers := headers["Sec-Fetch-Mode" := "cors"];
    headers := headers["Sec-Fetch-Site" := "same-origin"];
    if !IsBlank(cookie) {
      headers := headers["Cookie" := cookie.value];
    }
  }
}
