# WooCommerce Subscriptions core: autoloader routing, recurring-cart helpers and the plans report

This project models three small pieces of the WooCommerce Subscriptions plugin and proves
properties about them in Dafny.

- **The autoloader** (`WCS_Autoloader`) decides which class names belong to the plugin. A name
  belongs to it if it is in an explicit lower-case set, or if it contains `wc_reports` or
  `report` in any letter case. The autoloader routes each plugin class to `/includes` or a
  directory below it, and it always autoloads three legacy classes. Its parent autoloader is not part
  of this model. The parent's three answers (base path, relative path, whether to autoload) are
  arbitrary functions of the class name (`Autoloader.BaseAutoloader`).
- **The recurring-cart helpers** (`wcs-cart-functions.php`) cover the following:
  - looking a field up in a recurring cart (`wcs_cart_pluck`);
  - naming a cart item;
  - the shipping input's type attribute;
  - the recurring shipping label;
  - the first-renewal note appended to the order total;
  - the coupon text.

  A cart is a map of properties plus a sequence of items. Each item has its own keys and its
  product's properties. Price formatting, date formatting, WordPress's `checked()` and the
  country's tax notes are parameters.
- **The "subscriptions by plan" report** (`WC_Report_Subscription_By_Plan`) is a class whose
  `items` field `prepare_items` sets from the plan query. The model builds the query's two IN
  lists as text and takes the database's answer as a function of them. `plan_breakdown_chart`
  pairs the first twelve rows with a twelve-colour palette.

`php_strings.dfy` models the PHP and WordPress string primitives these rely on:
- `stripos` with ASCII case folding;
- `strpos`;
- `explode` on a one-character separator;
- `implode`;
- `array_filter` without a callback, which drops `""` and `"0"`;
- `trailingslashit`.

## Model

| member | source | states |
|---|---|---|
| PhpStrings.Lower | includes/class-wcs-autoloader.php:71 | the lower-cased copy has the same length and folds each character as `stripos` does, ASCII letters only |
| PhpStrings.Contains | includes/class-wcs-autoloader.php:73-77 | `strpos(...) !== false` holds when the needle occurs at some index; an empty needle or a prefix is always found, and a needle longer than the haystack never |
| PhpStrings.ContainsCI | includes/class-wcs-autoloader.php:117 | `stripos(...) !== false` is the substring test on the lower-cased strings; every case-sensitive match is also a case-insensitive one, and the needle is never longer than the haystack |
| PhpStrings.Kept | includes/wcs-cart-functions.php:326 | `array_filter` keeps exactly the truthy strings, takes nothing new, and gives an empty list exactly when every part is `""` or `"0"` |
| PhpStrings.KeptSingle | includes/wcs-cart-functions.php:326 | a single part survives the filter exactly when it is truthy |
| PhpStrings.KeptAppend | includes/wcs-cart-functions.php:326 | filtering a concatenation is the concatenation of the filtered halves, so the kept parts stay in their order and keep their repetitions; with `KeptSingle` this fixes the filter's result on every list |
| PhpStrings.Join | includes/wcs-cart-functions.php:203 | `implode` of no parts is `""`, of one part is that part, and otherwise starts with the first part |
| PhpStrings.JoinContainsParts | includes/wcs-cart-functions.php:326 | every part occurs in the imploded string |
| PhpStrings.JoinOfTruthyParts | includes/wcs-cart-functions.php:326-328 | imploding parts that are all truthy gives an empty (falsy) string exactly when there are no parts, which is what the `empty()` test after the join relies on |
| PhpStrings.JoinSplit | includes/wcs-cart-functions.php:326 | `implode` after `explode` with the same one-character separator gives back the original string |
| PhpStrings.Split | includes/wcs-cart-functions.php:326 | `explode` gives at least one piece, and no piece contains the separator |
| PhpStrings.TrailingSlashIt | includes/class-wcs-autoloader.php:81 | the result ends in `/` with no slash before it; apart from that `/` it is the input with its trailing slashes removed; a string not ending in a slash just gains one `/` |
| PhpStrings.Untrailing | includes/class-wcs-autoloader.php:81 | the result is a prefix of the input, ends in no slash, and only slashes were removed |
| Autoloader.IsPluginClass | includes/class-wcs-autoloader.php:111-123 | the explicit-set test followed by the early-return scan of the substrings answers true exactly when the name is in the set or contains one of the substrings case-insensitively |
| Autoloader.ReportsSubstringRedundant | includes/class-wcs-autoloader.php:40-43 | any name containing `wc_reports` in any case also contains `report`, so the first substring never decides anything |
| Autoloader.OwnedIffListedOrReport | includes/class-wcs-autoloader.php:22-43 | with the configured set and substrings, a class is the plugin's exactly when it is listed or contains `report` in any case |
| Autoloader.GetClassBasePath | includes/class-wcs-autoloader.php:53-59 | the plugin directory for every plugin class, whatever its name; the parent's base path for every other class |
| Autoloader.GetRelativeClassPath | includes/class-wcs-autoloader.php:67-85 | building `/includes`, appending the first matching sub-directory and applying `trailingslashit` yields `/includes` + sub-directory + `/` for plugin classes; other classes get exactly the parent's relative path |
| Autoloader.PluginPathShape | includes/class-wcs-autoloader.php:69-81 | a plugin class's relative path starts with `/includes` and ends with exactly one `/` |
| Autoloader.OwnedByNameRoutesBelowIncludes | includes/class-wcs-autoloader.php:71-79 | a lower-case class that the plugin owns through the `report` substring, not through the explicit set, gets one of the four sub-directories `/switching`, `/admin`, `/admin/reports/deprecated` or `/admin/reports`, so it never lands in bare `/includes/` |
| Autoloader.ShouldAutoload | includes/class-wcs-autoloader.php:93-101 | the legacy names always autoload; every other name gets the parent's answer |
| Autoloader.LegacyClassesRoute | includes/class-wcs-autoloader.php:94-98 | the three legacy names are plugin classes and autoload; the pending-switch item goes to `/includes/switching/`, and the two report classes go to `/includes/admin/reports/deprecated/` |
| CartFunctions.Truthy | includes/wcs-cart-functions.php:282 | PHP truthiness on null, booleans, integers and strings: such a value is falsy exactly when it is null, `false`, `0`, `""` or `"0"` |
| CartFunctions.Get | includes/wcs-cart-functions.php:282 | reading a present property gives its stored value, and reading a missing one gives null |
| CartFunctions.IsSet | includes/wcs-cart-functions.php:276-280 | `isset` holds exactly when the property reads as something other than null, and only for present keys |
| CartFunctions.Pluck | includes/wcs-cart-functions.php:272-289 | a field set on the cart wins. Otherwise the last item that supplies the field gives the value, through its own key when set, else through its product's truthy property. If no item supplies the field, the result is the default, which is `0` unless given |
| CartFunctions.CartItemName | includes/wcs-cart-functions.php:315-334 | without attributes, or when every line of the item data is `""` or `"0"`, the name is the title. Otherwise it is the title followed by the kept lines joined with `", "` in parentheses |
| CartFunctions.ShippingInputAttributes | includes/wcs-cart-functions.php:121-133 | the type printed is `radio` or `hidden`; a radio input keeps `checked()`'s answer; any other type becomes `hidden` with an empty checked attribute |
| CartFunctions.ShippingMethodLabel | includes/wcs-cart-functions.php:141-163 | the label is a prefix of the text. A cost of zero or less gives `": Free"`. Excluding-tax display shows the cost alone, with the ex-tax note only for a taxed rate when prices include tax. Otherwise the text shows cost plus tax, with the inc-tax note only for a taxed rate when prices exclude tax |
| CartFunctions.AddFirstRenewalPaymentDate | includes/wcs-cart-functions.php:297-306 | the HTML is unchanged exactly when the next payment date is strictly the integer `0`; otherwise the first-renewal block with the formatted date is appended |
| CartFunctions.DiscountHtml | includes/wcs-cart-functions.php:190-194 | a non-zero amount gives a minus sign followed by the formatted amount, a zero amount gives `""`; so the text is falsy exactly when the amount is zero |
| CartFunctions.CouponValue | includes/wcs-cart-functions.php:196-203 | empty discount text is dropped before the join: the value is `""`, the free-shipping note, the discount text, or both joined by `", "`, never holding an empty segment |
| CartFunctions.CouponPartsKept | includes/wcs-cart-functions.php:196-203 | filtering the coupon's parts removes the discount text exactly when it is falsy and always keeps the free-shipping note |
| CartFunctions.CouponPartsJoined | includes/wcs-cart-functions.php:196-203 | joining the discount text with the optional note gives the text alone, or the text, `", "` and the note |
| PlanReport.GetColumns | includes/admin/reports/class-wcs-report-subscription-by-plan.php:75-82 | the report has exactly two columns, `plan_name` then `sub_count` |
| PlanReport.ColumnDefault | includes/admin/reports/class-wcs-report-subscription-by-plan.php:54-68 | `plan_name` gives the plan's edit link and `sub_count` the row's count. A cell has content exactly when its column is one of the report's columns; any other column is blank |
| PlanReport.Quoted | includes/admin/reports/class-wcs-report-subscription-by-plan.php:119-121 | element `i` is value `i` after the prefix, between single quotes |
| PlanReport.InList | includes/admin/reports/class-wcs-report-subscription-by-plan.php:119-121 | the IN-list text built with `implode("','" . prefix, …)` is each value, in order, prefixed, single-quoted and comma-separated; an empty list leaves just the quoted prefix |
| PlanReport.InListIsQuotedJoin | includes/admin/reports/class-wcs-report-subscription-by-plan.php:119-121 | for every non-empty list, the quote-prefix-join-quote construction equals the comma-join of the quoted values |
| PlanReport.InListOfTwo | includes/admin/reports/class-wcs-report-subscription-by-plan.php:119-121 | the IN list of two values, written out |
| PlanReport.DefaultProductTypeList | includes/admin/reports/class-wcs-report-subscription-by-plan.php:119 | the default product types give `'subscription','variable-subscription'` |
| PlanReport.DefaultStatusList | includes/admin/reports/class-wcs-report-subscription-by-plan.php:121 | the default statuses give `'wc-active','wc-pending-cancel'` |
| PlanReport.SubscriptionByPlanReport.constructor | includes/admin/reports/class-wcs-report-subscription-by-plan.php:18-25 | a new report holds no rows and no column headers until `prepare_items` runs |
| PlanReport.SubscriptionByPlanReport.PrepareItems | includes/admin/reports/class-wcs-report-subscription-by-plan.php:87-127 | the visible columns of the column headers become the report's columns. The rows become the query's answer for the product-type list and the `wc-`-prefixed status list |
| PlanReport.SubscriptionByPlanReport.PlanBreakdownChart | includes/admin/reports/class-wcs-report-subscription-by-plan.php:132-171 | legend and series both have min(12, rows) entries. Entry `i` comes from row `i`, in order, and is coloured with palette entry `i`: the legend shows the plan name, and the series carries the plan name as label and the count as data |
| PlanReport.PaletteDistinct | includes/admin/reports/class-wcs-report-subscription-by-plan.php:134-137 | the palette has exactly as many colours as the chart shows rows, so every index is in bounds. It also shows an extra fact about the palette's contents, not a promise of the code: its colours are pairwise different |

## Left out

- The SQL query itself and its execution (joins, grouping, ordering) belong to the database. Only the two IN lists are built. `PrepareItems` takes the query's result as a function of those lists.
- The allow-list filters on the product types and statuses are not modelled: `PrepareItems` takes whatever lists they return as its `productTypes` and `activeStatuses` parameters, and the default lists are stated separately (`DefaultProductTypeList`, `DefaultStatusList`).
- The coupon discount filter is not modelled either: its output is the `discountHtml` input of `CouponValue`. Every other `apply_filters` hook is treated as identity, including `wcs_reports_plans_query`, which could replace the whole query text.
- `wcs_cart_totals_shipping_html` is not modelled, because it depends on the host's shipping packages, the session and template rendering.
- Not modelled, because they are formatting or host glue: `wcs_cart_totals_subtotal_html`, `wcs_cart_totals_taxes_total_html`, `wcs_cart_totals_order_total_html` and `wcs_cart_price_string`. Nor is the filtering, price-string wrapping and printing done after the coupon join.
- All HTML, JavaScript and `printf` emission, escaping (`esc_html`, `esc_js`, `esc_attr`, `wp_kses_post`) and list-table display and pagination are left out. Translation is replaced by the English strings.
- Price and date formatting (`wc_price`, the cart price string, `date_i18n`, `get_date_from_gmt`) are function parameters. So are WordPress's `checked()` and the country's tax notes.
- The tax-display setting and the cart's coupon discount amount are inputs.
- Money amounts are integers, not PHP floats.
- `dirname(WC_Subscriptions::$plugin_file)` is the `pluginDir` parameter.
- The parent autoloader (`WCS_Base_Autoloader`) and the file it pulls in with `require_once` are not part of this model. The parent's answers are arbitrary functions.
- The autoloader is a value (`WcsAutoloader`), not a class: its fields are set once and never updated.
- Autoloader.OwnedByNameRoutesBelowIncludes: assumes a lower-case class name. The explicit set is lower-case and the parent is expected to lower-case names first. Mixed-case names containing `Admin` or `Report` can still reach bare `/includes/`, because those tests are case-sensitive.
- CartFunctions.Truthy: floats and arrays are not part of the value model, so a product property holding one cannot be expressed; PHP would also treat `0.0` and `[]` as falsy.
- CartFunctions.Pluck: does not model a product property read as `$cart_item['data']` when the field is itself named `data`. The cart's own property is tested with `isset`: present and not null.
- CartFunctions.ShippingInputAttributes: the loose `'radio' ==` comparison is modelled as string equality; PHP's loose `==` on non-string input types is not modelled.
- CartFunctions.ShippingMethodLabel: the loose comparison of the tax-display setting with `'excl'` is modelled as the boolean `displayExclTax`; non-string settings are not modelled.
- PlanReport.ColumnDefault: `edit_post_link` prints the link itself, and prints nothing when the user may not edit the plan. The model records the link as the cell's content.
- PlanReport.SubscriptionByPlanReport.PrepareItems: of the three parts of the column headers, only the visible columns are kept; the empty hidden list and the sortable columns are not modelled. The current page and per-page values it reads are unused by the query and left out too.
- PlanReport.SubscriptionByPlanReport.constructor: the list table's own constructor arguments (singular and plural labels, no AJAX) and the `no_items` text are display only.
