/** The subscription plugin's autoloader: which class names the plugin owns,
    where their files live, and which names are always autoloaded. */
module Autoloader {
  import opened PhpStrings

  /** The parent autoloader. Its code is not part of this model, so each of
      its three answers is an arbitrary function of the class name. */
  datatype BaseAutoloader = BaseAutoloader(
    classBasePath: string -> string,
    relativeClassPath: string -> string,
    shouldAutoload: string -> bool)

  /** The autoloader's state: the classes and substrings it claims, and its parent.
      Neither collection is ever changed after construction. */
  datatype WcsAutoloader = WcsAutoloader(
    classes: set<string>,
    classSubstrings: seq<string>,
    parent: BaseAutoloader)

  /** Lower-case names of the classes the plugin owns outright. */
  const Classes: set<string> := {
    "wc_subscriptions_plugin",
    "wc_subscriptions_switcher",
    "wcs_cart_switch",
    "wcs_switch_totals_calculator",
    "wcs_switch_cart_item",
    "wcs_add_cart_item",
    "wc_order_item_pending_switch",
    "wcs_manual_renewal_manager",
    "wcs_customer_suspension_manager",
    "wcs_drip_downloads_manager"
  }

  /** Substrings that mark a class as the plugin's, tested case-insensitively in this order. */
  const ClassSubstrings: seq<string> := ["wc_reports", "report"]

  /** Class names that are always autoloaded, whatever the parent says. */
  const Legacy: set<string> := {
    "wc_order_item_pending_switch",
    "wc_report_retention_rate",
    "wc_report_upcoming_recurring_revenue"
  }

  /** The autoloader as the plugin configures it. */
  predicate IsConfigured(loader: WcsAutoloader) {
    loader.classes == Classes && loader.classSubstrings == ClassSubstrings
  }

  /** The autoloader claims a class named in its set or containing one of its substrings. */
  predicate IsOwned(loader: WcsAutoloader, name: string) {
    name in loader.classes
    || exists k :: 0 <= k < |loader.classSubstrings| && ContainsCI(name, loader.classSubstrings[k])
  }

  /** `is_plugin_class`: the explicit set first, then each substring in turn, stopping at the first hit. */
  method IsPluginClass(loader: WcsAutoloader, name: string) returns (owned: bool)
    ensures owned <==> IsOwned(loader, name)
  {
    if name in loader.classes {
      return true;
    }
    var k := 0;
    while k < |loader.classSubstrings|
      invariant 0 <= k <= |loader.classSubstrings|
      invariant forall j :: 0 <= j < k ==> !ContainsCI(name, loader.classSubstrings[j])
    {
      if ContainsCI(name, loader.classSubstrings[k]) {
        return true;
      }
      k := k + 1;
    }
    return false;
  }

  /** `report` occurs in the two longer marker substrings. */
  lemma ReportInside(marker: string)
    requires marker == "wc_reports" || marker == "wc_report"
    ensures Contains(marker, "report")
  {
    assert OccursAt(marker, "report", 3);
  }

  /** Any name containing `wc_reports` also contains `report`, so the first substring never decides anything. */
  lemma ReportsSubstringRedundant(name: string)
    requires ContainsCI(name, "wc_reports")
    ensures ContainsCI(name, "report")
  {
    LowerOfLowercase("wc_reports");
    LowerOfLowercase("report");
    ReportInside("wc_reports");
    ContainsTransitive(Lower(name), "wc_reports", "report");
  }

  /** Ownership is exactly: named in `Classes`, or containing `report` in any letter case. */
  lemma OwnedIffListedOrReport(loader: WcsAutoloader, name: string)
    requires IsConfigured(loader)
    ensures IsOwned(loader, name) <==> name in Classes || ContainsCI(name, "report")
  {
    if ContainsCI(name, loader.classSubstrings[0]) {
      ReportsSubstringRedundant(name);
    }
    if ContainsCI(name, "report") {
      assert ContainsCI(name, loader.classSubstrings[1]);
    }
  }

  /** `get_class_base_path`: the plugin directory for the plugin's classes, the parent's answer otherwise. */
  method GetClassBasePath(loader: WcsAutoloader, pluginDir: string, name: string) returns (path: string)
    ensures IsOwned(loader, name) ==> path == pluginDir
    ensures !IsOwned(loader, name) ==> path == loader.parent.classBasePath(name)
  {
    var owned := IsPluginClass(loader, name);
    if owned {
      return pluginDir;
    }
    return loader.parent.classBasePath(name);
  }

  /** The sub-directory of `/includes` holding one of the plugin's classes: the
      first test that matches decides (`switch` is case-insensitive, the others are not). */
  function PluginSubdirectory(name: string): string {
    if ContainsCI(name, "switch") || name == "wcs_add_cart_item" then "/switching"
    else if Contains(name, "admin") then "/admin"
    else if Contains(name, "wc_report") then "/admin/reports/deprecated"
    else if Contains(name, "report") then "/admin/reports"
    else ""
  }

  /** Where a class's file lives relative to the plugin root: under `/includes`
      for the plugin's own classes, the parent's answer for the rest. */
  function RelativeClassPath(loader: WcsAutoloader, name: string): string {
    if IsOwned(loader, name) then "/includes" + PluginSubdirectory(name) + "/"
    else loader.parent.relativeClassPath(name)
  }

  /** `get_relative_class_path`: builds the path from `/includes` by appending
      the sub-directory, then adds the trailing slash. */
  method GetRelativeClassPath(loader: WcsAutoloader, name: string) returns (path: string)
    ensures path == RelativeClassPath(loader, name)
  {
    var owned := IsPluginClass(loader, name);
    if owned {
      path := "/includes";
      if ContainsCI(name, "switch") || name == "wcs_add_cart_item" {
        path := path + "/switching";
      } else if Contains(name, "admin") {
        path := path + "/admin";
      } else if Contains(name, "wc_report") {
        path := path + "/admin/reports/deprecated";
      } else if Contains(name, "report") {
        path := path + "/admin/reports";
      }
      path := TrailingSlashIt(path);
    } else {
      path := loader.parent.relativeClassPath(name);
    }
  }

  /** A plugin class's path starts with `/includes` and ends with exactly one slash. */
  lemma PluginPathShape(loader: WcsAutoloader, name: string)
    requires IsOwned(loader, name)
    ensures var p := RelativeClassPath(loader, name);
      "/includes" <= p && |p| >= 2 && p[|p| - 1] == '/' && p[|p| - 2] != '/'
  {
  }

  /** A lower-case class the plugin owns only by its name lands under the admin
      or switching directories, never in bare `/includes/`. */
  lemma OwnedByNameRoutesBelowIncludes(loader: WcsAutoloader, name: string)
    requires IsConfigured(loader) && IsLowercase(name) && IsOwned(loader, name) && name !in Classes
    ensures PluginSubdirectory(name) in {"/switching", "/admin", "/admin/reports/deprecated", "/admin/reports"}
    ensures RelativeClassPath(loader, name) != "/includes/"
  {
    OwnedIffListedOrReport(loader, name);
    LowerOfLowercase(name);
    LowerOfLowercase("report");
  }

  /** `should_autoload`: the legacy names always, every other name as the parent decides. */
  function ShouldAutoload(loader: WcsAutoloader, name: string): (r: bool)
    ensures name in Legacy ==> r
    ensures name !in Legacy ==> r == loader.parent.shouldAutoload(name)
  {
    if name in Legacy then true else loader.parent.shouldAutoload(name)
  }

  /** The legacy names are the plugin's own classes, and resolve to the switching
      directory and the deprecated reports directory. */
  lemma LegacyClassesRoute(loader: WcsAutoloader)
    requires IsConfigured(loader)
    ensures forall name :: name in Legacy ==> IsOwned(loader, name) && ShouldAutoload(loader, name)
    ensures RelativeClassPath(loader, "wc_order_item_pending_switch") == "/includes/switching/"
    ensures RelativeClassPath(loader, "wc_report_retention_rate") == "/includes/admin/reports/deprecated/"
    ensures RelativeClassPath(loader, "wc_report_upcoming_recurring_revenue") == "/includes/admin/reports/deprecated/"
  {
    PendingSwitchIsSwitching();
    DeprecatedReportName("wc_report_retention_rate");
    DeprecatedReportName("wc_report_upcoming_recurring_revenue");
    assert "wc_order_item_pending_switch" in loader.classes;
    assert ContainsCI("wc_report_retention_rate", loader.classSubstrings[1]);
    assert ContainsCI("wc_report_upcoming_recurring_revenue", loader.classSubstrings[1]);
    RoutedPathLiterals();
  }

  lemma RoutedPathLiterals()
    ensures "/includes" + "/switching" + "/" == "/includes/switching/"
    ensures "/includes" + "/admin/reports/deprecated" + "/" == "/includes/admin/reports/deprecated/"
  {
  }

  lemma PendingSwitchIsSwitching()
    ensures ContainsCI("wc_order_item_pending_switch", "switch")
  {
    LowercaseSearch("wc_order_item_pending_switch", "switch");
    assert OccursAt("wc_order_item_pending_switch", "switch", 22);
  }

  /** The two legacy report names contain `report` and `wc_report` but neither `switch` nor `admin`. */
  lemma DeprecatedReportName(name: string)
    requires name == "wc_report_retention_rate" || name == "wc_report_upcoming_recurring_revenue"
    ensures ContainsCI(name, "report") && Contains(name, "wc_report")
    ensures !ContainsCI(name, "switch") && !Contains(name, "admin")
  {
    LegacyNameIsLowercase(name);
    LowercaseSearch(name, "report");
    LowercaseSearch(name, "switch");
    StartsWithWcReport(name);
    ReportInside("wc_report");
    ContainsTransitive(name, "wc_report", "report");
    LacksSwitchAndAdmin(name);
  }

  lemma LegacyNameIsLowercase(name: string)
    requires name == "wc_report_retention_rate" || name == "wc_report_upcoming_recurring_revenue"
    ensures IsLowercase(name)
  {
  }

  lemma StartsWithWcReport(name: string)
    requires name == "wc_report_retention_rate" || name == "wc_report_upcoming_recurring_revenue"
    ensures Contains(name, "wc_report")
  {
    assert OccursAt(name, "wc_report", 0);
  }

  lemma LacksSwitchAndAdmin(name: string)
    requires name == "wc_report_retention_rate" || name == "wc_report_upcoming_recurring_revenue"
    ensures !Contains(name, "switch") && !Contains(name, "admin")
  {
    LacksLetters(name);
    AbsentCharNotContained(name, "switch", 'h');
    AbsentCharNotContained(name, "admin", 'd');
  }

  lemma LacksLetters(name: string)
    requires name == "wc_report_retention_rate" || name == "wc_report_upcoming_recurring_revenue"
    ensures 'h' !in name && 'd' !in name
  {
  }
}
