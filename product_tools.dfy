/**
 * The static lookup tools of project/src/tools/product_tools.py: the return
 * policy of a product category and the technical information of a product
 * type, each a table lookup on the lower-cased key followed by a fixed
 * layout of bullet lines.
 */
module ProductTools {
  import opened Wrappers
  import opened Strings

  predicate OneLine(s: string)
  {
    '\n' !in s
  }

  /** One bullet line: its label, then its text. */
  function Bullet(name: string, text: string): (line: string)
    ensures StartsWith(line, name) && EndsWith(line, text)
    ensures OneLine(name) && OneLine(text) ==> OneLine(line)
  {
    var line := name + text;
    assert line[..|name|] == name && line[|name|..] == text;
    line
  }

  /** One entry of `return_policies`, or `default_policy`. */
  datatype Policy = Policy(window: string, condition: string, process: string,
                           refundTime: string, shipping: string, warranty: string)

  const SmartphonePolicy: Policy := Policy(
    "30 days",
    "Original packaging, no physical damage, factory reset required",
    "Online RMA portal or technical support",
    "5-7 business days after inspection",
    "Free return shipping, prepaid label provided",
    "1-year manufacturer warranty included")

  const LaptopPolicy: Policy := Policy(
    "30 days",
    "Original packaging, all accessories, no software modifications",
    "Technical support verification required before return",
    "7-10 business days after inspection",
    "Free return shipping with original packaging",
    "1-year manufacturer warranty, extended options available")

  const AccessoryPolicy: Policy := Policy(
    "30 days",
    "Unopened packaging preferred, all components included",
    "Online return portal",
    "3-5 business days after receipt",
    "Customer pays return shipping under $50",
    "90-day manufacturer warranty")

  const DefaultPolicy: Policy := Policy(
    "30 days",
    "Original condition with all included components",
    "Contact technical support",
    "5-7 business days after inspection",
    "Return shipping policies vary",
    "Standard manufacturer warranty applies")

  /** `return_policies.get(product_category.lower(), default_policy)`. */
  function PolicyFor(category: string): (p: Policy)
    ensures p.window == "30 days"
  {
    var key := Lower(category);
    if key == "smartphones" then SmartphonePolicy
    else if key == "laptops" then LaptopPolicy
    else if key == "accessories" then AccessoryPolicy
    else DefaultPolicy
  }

  /** No text of a policy breaks a line. */
  predicate SingleLinePolicy(p: Policy)
  {
    && OneLine(p.window) && OneLine(p.condition) && OneLine(p.process)
    && OneLine(p.refundTime) && OneLine(p.shipping) && OneLine(p.warranty)
  }

  /** The labels of the six policy bullets, in output order. */
  const PolicyLabels: seq<string> := [
    "\U{2022} Return window: ",
    "\U{2022} Condition: ",
    "\U{2022} Process: ",
    "\U{2022} Refund timeline: ",
    "\U{2022} Shipping: ",
    "\U{2022} Warranty: "]

  lemma PolicyLabelsOneLine()
    ensures forall k | 0 <= k < |PolicyLabels| :: OneLine(PolicyLabels[k])
  {
  }

  /**
   * The six bullet lines of a policy, in the order window, condition,
   * process, refund, shipping, warranty; the window reads "... from delivery".
   */
  function PolicyLines(p: Policy): (lines: seq<string>)
    ensures |lines| == 6
    ensures SingleLinePolicy(p) ==> forall k | 0 <= k < 6 :: OneLine(lines[k])
  {
    PolicyLabelsOneLine();
    assert OneLine(" from delivery");
    [Bullet(PolicyLabels[0], p.window + " from delivery"),
     Bullet(PolicyLabels[1], p.condition),
     Bullet(PolicyLabels[2], p.process),
     Bullet(PolicyLabels[3], p.refundTime),
     Bullet(PolicyLabels[4], p.shipping),
     Bullet(PolicyLabels[5], p.warranty)]
  }

  /** Each policy bullet carries its label and then its text. */
  lemma PolicyBullets(p: Policy)
    ensures var lines := PolicyLines(p);
            && StartsWith(lines[0], PolicyLabels[0]) && EndsWith(lines[0], p.window + " from delivery")
            && StartsWith(lines[1], PolicyLabels[1]) && EndsWith(lines[1], p.condition)
            && StartsWith(lines[2], PolicyLabels[2]) && EndsWith(lines[2], p.process)
            && StartsWith(lines[3], PolicyLabels[3]) && EndsWith(lines[3], p.refundTime)
            && StartsWith(lines[4], PolicyLabels[4]) && EndsWith(lines[4], p.shipping)
            && StartsWith(lines[5], PolicyLabels[5]) && EndsWith(lines[5], p.warranty)
  {
  }

  /** The return-policy text for a category titled `title`: the heading line, a blank line and the six bullets. */
  function FormatPolicy(title: string, p: Policy): (r: string)
    ensures r == Join(["Return Policy - " + title + ":", ""] + PolicyLines(p), "\n")
  {
    var heading := "Return Policy - " + title + ":";
    var lines := PolicyLines(p);
    BlankLineJoin(heading, lines, "\n");
    heading + "\n" + "\n" + Join(lines, "\n")
  }

  /** Read line by line, a policy text is its heading, a blank line and the six bullets. */
  lemma PolicyLayout(title: string, p: Policy)
    requires '\n' !in title && SingleLinePolicy(p)
    ensures Split(FormatPolicy(title, p), '\n') == ["Return Policy - " + title + ":", ""] + PolicyLines(p)
  {
    PolicyHeading(title);
    SplitBlankLine("Return Policy - " + title + ":", PolicyLines(p), '\n');
  }

  lemma PolicyHeading(title: string)
    requires OneLine(title)
    ensures OneLine("Return Policy - " + title + ":")
  {
  }

  /** `get_return_policy(product_category)`. */
  function GetReturnPolicy(category: string): (r: string)
    ensures StartsWith(r, "Return Policy - " + Title(category) + ":" + "\n" + "\n")
    ensures r == "Return Policy - " + Title(category) + ":" + "\n" + "\n" + Join(PolicyLines(PolicyFor(category)), "\n")
  {
    BlankLineJoin("Return Policy - " + Title(category) + ":", PolicyLines(PolicyFor(category)), "\n");
    FormatPolicy(Title(category), PolicyFor(category))
  }

  /**
   * The lookup ignores case, finds the three known categories and gives the
   * default policy for any other.
   */
  lemma ReturnPolicyLookup(category: string, other: string)
    ensures Lower(category) == "smartphones" ==> PolicyFor(category) == SmartphonePolicy
    ensures Lower(category) == "laptops" ==> PolicyFor(category) == LaptopPolicy
    ensures Lower(category) == "accessories" ==> PolicyFor(category) == AccessoryPolicy
    ensures Lower(category) !in ["smartphones", "laptops", "accessories"] ==> PolicyFor(category) == DefaultPolicy
    ensures Lower(category) == Lower(other) ==> PolicyFor(category) == PolicyFor(other)
  {
  }

  /**
   * Read line by line, a return policy is the heading "Return Policy -
   * {title}:", a blank line and the six bullets in their fixed order.
   */
  lemma ReturnPolicyLayout(category: string)
    requires '\n' !in category
    requires SingleLinePolicy(PolicyFor(category))
    ensures var lines := Split(GetReturnPolicy(category), '\n');
            && lines == ["Return Policy - " + Title(category) + ":", ""] + PolicyLines(PolicyFor(category))
            && |lines| == 8
  {
    TitleNewlines(category, false);
    PolicyLayout(Title(category), PolicyFor(category));
  }

  /** One entry of `products`. */
  datatype Product = Product(warranty: string, specs: string, features: string,
                             compatibility: string, support: string)

  const LaptopInfo: Product := Product(
    "1-year manufacturer warranty + optional extended coverage",
    "Intel/AMD processors, 8-32GB RAM, SSD storage, various display sizes",
    "Backlit keyboards, USB-C/Thunderbolt, Wi-Fi 6, Bluetooth 5.0",
    "Windows 11, macOS, Linux support varies by model",
    "Technical support and driver updates included")

  const SmartphoneInfo: Product := Product(
    "1-year manufacturer warranty",
    "5G/4G connectivity, 128GB-1TB storage, multiple camera systems",
    "Wireless charging, water resistance, biometric security",
    "iOS/Android, carrier unlocked options available",
    "Software updates and technical support included")

  const HeadphoneInfo: Product := Product(
    "1-year manufacturer warranty",
    "Wired/wireless options, noise cancellation, 20Hz-20kHz frequency",
    "Active noise cancellation, touch controls, voice assistant",
    "Bluetooth 5.0+, 3.5mm jack, USB-C charging",
    "Firmware updates via companion app")

  const MonitorInfo: Product := Product(
    "3-year manufacturer warranty",
    "4K/1440p/1080p resolutions, IPS/OLED panels, various sizes",
    "HDR support, high refresh rates, adjustable stands",
    "HDMI, DisplayPort, USB-C inputs",
    "Color calibration and technical support")

  /** `products.get(product_type.lower())`. */
  function ProductFor(productType: string): (p: Option<Product>)
    ensures p.None? <==> Lower(productType) !in ["laptops", "smartphones", "headphones", "monitors"]
  {
    var key := Lower(productType);
    if key == "laptops" then Some(LaptopInfo)
    else if key == "smartphones" then Some(SmartphoneInfo)
    else if key == "headphones" then Some(HeadphoneInfo)
    else if key == "monitors" then Some(MonitorInfo)
    else None
  }

  /** No text of a product breaks a line. */
  predicate SingleLineProduct(p: Product)
  {
    && OneLine(p.warranty) && OneLine(p.specs) && OneLine(p.features)
    && OneLine(p.compatibility) && OneLine(p.support)
  }

  /** The labels of the five product bullets, in output order. */
  const ProductLabels: seq<string> := [
    "\U{2022} Warranty: ",
    "\U{2022} Specifications: ",
    "\U{2022} Key Features: ",
    "\U{2022} Compatibility: ",
    "\U{2022} Support: "]

  lemma ProductLabelsOneLine()
    ensures forall k | 0 <= k < |ProductLabels| :: OneLine(ProductLabels[k])
  {
  }

  /** The five bullet lines of a product: warranty, specifications, features, compatibility, support. */
  function ProductLines(p: Product): (lines: seq<string>)
    ensures |lines| == 5
    ensures SingleLineProduct(p) ==> forall k | 0 <= k < 5 :: OneLine(lines[k])
  {
    ProductLabelsOneLine();
    [Bullet(ProductLabels[0], p.warranty),
     Bullet(ProductLabels[1], p.specs),
     Bullet(ProductLabels[2], p.features),
     Bullet(ProductLabels[3], p.compatibility),
     Bullet(ProductLabels[4], p.support)]
  }

  /** Each product bullet carries its label and then its text. */
  lemma ProductBullets(p: Product)
    ensures var lines := ProductLines(p);
            && StartsWith(lines[0], ProductLabels[0]) && EndsWith(lines[0], p.warranty)
            && StartsWith(lines[1], ProductLabels[1]) && EndsWith(lines[1], p.specs)
            && StartsWith(lines[2], ProductLabels[2]) && EndsWith(lines[2], p.features)
            && StartsWith(lines[3], ProductLabels[3]) && EndsWith(lines[3], p.compatibility)
            && StartsWith(lines[4], ProductLabels[4]) && EndsWith(lines[4], p.support)
  {
  }

  /** The answer for a product type with no entry; it names the type as given. */
  function Unavailable(productType: string): string
  {
    "Technical specifications for " + productType + " not available. Please contact our technical support team"
    + " for detailed product information and compatibility requirements."
  }

  /** The opening of every information text. */
  const InfoPrefix := "Technical Information - "

  /** The information text for a type titled `title`: the heading line, a blank line and the five bullets. */
  function FormatProduct(title: string, p: Product): (r: string)
    ensures r == Join([InfoPrefix + title + ":", ""] + ProductLines(p), "\n")
  {
    var heading := InfoPrefix + title + ":";
    var lines := ProductLines(p);
    BlankLineJoin(heading, lines, "\n");
    heading + "\n" + "\n" + Join(lines, "\n")
  }

  /** Read line by line, an information text is its heading, a blank line and the five bullets. */
  lemma ProductLayout(title: string, p: Product)
    requires '\n' !in title && SingleLineProduct(p)
    ensures Split(FormatProduct(title, p), '\n') == [InfoPrefix + title + ":", ""] + ProductLines(p)
  {
    ProductHeading(title);
    SplitBlankLine(InfoPrefix + title + ":", ProductLines(p), '\n');
  }

  lemma ProductHeading(title: string)
    requires OneLine(title)
    ensures OneLine(InfoPrefix + title + ":")
  {
  }

  /** `get_product_info(product_type)`. */
  function GetProductInfo(productType: string): (r: string)
    ensures StartsWith(r, InfoPrefix) <==> ProductFor(productType).Some?
    ensures ProductFor(productType).Some? ==>
              r == InfoPrefix + Title(productType) + ":" + "\n" + "\n" +
                   Join(ProductLines(ProductFor(productType).value), "\n")
    ensures ProductFor(productType).None? ==> r == Unavailable(productType)
  {
    match ProductFor(productType)
    case None =>
      UnavailableIsNoInformation(productType);
      Unavailable(productType)
    case Some(p) =>
      ProductText(Title(productType), p);
      FormatProduct(Title(productType), p)
  }

  /** The information text opens with its heading, a blank line and then the bullets. */
  lemma ProductText(title: string, p: Product)
    ensures var r := FormatProduct(title, p);
            && r == InfoPrefix + title + ":" + "\n" + "\n" + Join(ProductLines(p), "\n")
            && StartsWith(r, InfoPrefix)
  {
    var j := Join(ProductLines(p), "\n");
    PrefixOfConcat(InfoPrefix, title);
    PrefixExtend(InfoPrefix + title, InfoPrefix, ":");
    PrefixExtend(InfoPrefix + title + ":", InfoPrefix, "\n");
    PrefixExtend(InfoPrefix + title + ":" + "\n", InfoPrefix, "\n");
    PrefixExtend(InfoPrefix + title + ":" + "\n" + "\n", InfoPrefix, j);
  }



  /**
   * A type unknown in any letter case gets the "not available" answer, which
   * repeats the type exactly as it was given and is never laid out as
   * technical information.
   */
  lemma ProductInfoMiss(productType: string)
    ensures ProductFor(productType).None? ==>
              && GetProductInfo(productType) == Unavailable(productType)
              && !StartsWith(GetProductInfo(productType), InfoPrefix)
  {
    UnavailableIsNoInformation(productType);
  }

  lemma UnavailableIsNoInformation(productType: string)
    ensures !StartsWith(Unavailable(productType), InfoPrefix)
  {
    assert Unavailable(productType)[10] == "Technical specifications for "[10] == 's';
    assert InfoPrefix[10] == 'I';
  }

  /** The lookup ignores case and finds the four known types. */
  lemma ProductInfoLookup(productType: string, other: string)
    ensures Lower(productType) == "laptops" ==> ProductFor(productType) == Some(LaptopInfo)
    ensures Lower(productType) == "smartphones" ==> ProductFor(productType) == Some(SmartphoneInfo)
    ensures Lower(productType) == "headphones" ==> ProductFor(productType) == Some(HeadphoneInfo)
    ensures Lower(productType) == "monitors" ==> ProductFor(productType) == Some(MonitorInfo)
    ensures Lower(productType) == Lower(other) ==> ProductFor(productType) == ProductFor(other)
  {
  }

  /**
   * Read line by line, the information on a known type is the heading
   * "Technical Information - {title}:", a blank line and the five bullets in
   * their fixed order.
   */
  lemma ProductInfoLayout(productType: string)
    requires '\n' !in productType
    requires ProductFor(productType).Some? && SingleLineProduct(ProductFor(productType).value)
    ensures var lines := Split(GetProductInfo(productType), '\n');
            && lines == [InfoPrefix + Title(productType) + ":", ""] + ProductLines(ProductFor(productType).value)
            && |lines| == 7
  {
    TitleNewlines(productType, false);
    ProductLayout(Title(productType), ProductFor(productType).value);
  }

}
