/**
 * dev:vhost:generate: the command options handed to the view under
 * camelCase names, the websites handed to it without the admin website,
 * the choice between the apache and the nginx generator, and the view the
 * command creates once and reuses.
 */
module VHostGenerate {
  import opened Wrappers
  import opened PhpString
  import opened PhpArray

  /** An option value as the console input hands it over. */
  datatype OptionValue = Flag(on: bool) | Text(text: string) | NoValue

  /** The view variable name for an option: `server-admin` becomes `serverAdmin`. */
  function OptionName(key: string): string
  {
    CapAfter('-', key, false, false)
  }

  /**
   * The conversion inside _addOptionsToView: explode on '-', ucfirst every
   * part from the second on (the for loop from $i = 1), implode with ''.
   */
  method CamelizeOptionKey(key: string) returns (converted: string)
    ensures converted == OptionName(key)
    ensures '-' !in converted
    ensures |converted| == |key| - Count('-', key)
  {
    var keyParts := Explode('-', key);
    keyParts := UcFirstParts(keyParts, 1);
    converted := Implode("", keyParts);
    ImplodeCapitalized('-', key, false, false);
    CapAfterDropsSeparators('-', key, false);
  }

  /** Every part after the first is ucfirst-ed and the parts are joined with nothing between them. */
  lemma OptionNameParts(key: string)
    ensures OptionName(key) == Implode("", UcFirstFrom(Explode('-', key), 1))
    ensures '-' !in OptionName(key)
    ensures |OptionName(key)| == |key| - Count('-', key)
  {
    ImplodeCapitalized('-', key, false, false);
    CapAfterDropsSeparators('-', key, false);
  }

  /** A key without a hyphen is its own view variable name. */
  lemma OptionNameWithoutHyphen(key: string)
    requires '-' !in key
    ensures OptionName(key) == key
  {
    CapAfterPrefix('-', key, [], false);
    assert key + [] == key;
  }

  /**
   * The first part is never capitalised: up to the first hyphen the view
   * variable name is the option key itself.
   */
  lemma OptionNameKeepsFirstPart(key: string)
    ensures var first := Explode('-', key)[0];
      |first| <= |OptionName(key)| && OptionName(key)[..|first|] == first && key[..|first|] == first
  {
    var first := Explode('-', key)[0];
    ExplodeFirstIsPrefix('-', key);
    var rest := key[|first|..];
    assert key == first + rest;
    CapAfterPrefix('-', first, rest, false);
  }

  /** What the view is given for each option: the converted name and the unchanged value. */
  function ConvertedOptions(options: seq<(string, OptionValue)>): (converted: seq<(string, ViewValue)>)
    ensures |converted| == |options|
    ensures forall i :: 0 <= i < |options| ==>
      converted[i].0 == OptionName(options[i].0) && converted[i].1 == OptionVar(options[i].1)
  {
    seq(|options|, i requires 0 <= i < |options| => (OptionName(options[i].0), OptionVar(options[i].1)))
  }

  /** `$input->getOption('nginx')` taken as a condition: the value is PHP-truthy. */
  predicate Truthy(value: OptionValue)
  {
    match value
    case Flag(on) => on
    case Text(text) => text != "" && text != "0"
    case NoValue => false
  }

  /** The value of the named option, if the input has one. */
  function OptionLookup(options: seq<(string, OptionValue)>, name: string): (r: Option<OptionValue>)
    ensures r.Some? <==> exists i :: 0 <= i < |options| && options[i].0 == name
    ensures r.Some? ==> exists i :: 0 <= i < |options| && options[i] == (name, r.value)
    decreases |options|
  {
    if options == [] then None
    else if options[0].0 == name then Some(options[0].1)
    else
      var r := OptionLookup(options[1..], name);
      if r.Some? then
        var i :| 0 <= i < |options[1..]| && options[1..][i] == (name, r.value);
        assert options[i + 1] == (name, r.value);
        r
      else r
  }

  /** The nginx generator runs exactly when the nginx option is present and truthy. */
  predicate NginxRequested(options: seq<(string, OptionValue)>)
  {
    OptionLookup(options, "nginx").Some? && Truthy(OptionLookup(options, "nginx").value)
  }

  /**
   * getOption('nginx') decides as PHP truthiness does: a set flag or a text
   * other than "" and "0" asks for nginx; an absent option, a cleared flag,
   * "" or "0" asks for apache.
   */
  lemma NginxOption(options: seq<(string, OptionValue)>)
    ensures (forall i :: 0 <= i < |options| ==> options[i].0 != "nginx") ==> !NginxRequested(options)
    ensures |options| > 0 && options[0].0 == "nginx" ==> (NginxRequested(options) <==> Truthy(options[0].1))
    ensures Truthy(Flag(true)) && !Truthy(Flag(false)) && !Truthy(NoValue)
    ensures !Truthy(Text("")) && !Truthy(Text("0")) && Truthy(Text("0.0")) && Truthy(Text("false"))
  {
  }

  /** A Magento website as the command uses it. */
  class Website {
    const code: string
    /** The website's web/unsecure/base_url setting. */
    const unsecureBaseUrl: string
    /** Set by the command from the base url. */
    var hostName: Option<string>

    constructor (code: string, unsecureBaseUrl: string)
      ensures this.code == code && this.unsecureBaseUrl == unsecureBaseUrl && hostName == None
    {
      this.code := code;
      this.unsecureBaseUrl := unsecureBaseUrl;
      hostName := None;
    }
  }

  /** The key-0 website exists and is the admin website. */
  predicate AdminAtKeyZero(websites: Entries<Website>)
  {
    Get(websites, IntKey(0)).Some? && Get(websites, IntKey(0)).value.code == "admin"
  }

  /** The websites the view is given: unset($websites[0]) when there are several and key 0 is admin. */
  function WithoutAdminWebsite(websites: Entries<Website>): (shown: Entries<Website>)
    ensures |websites| - 1 <= |shown| <= |websites|
    ensures |websites| <= 1 ==> shown == websites
  {
    if |websites| > 1 && AdminAtKeyZero(websites) then Unset(websites, IntKey(0)) else websites
  }

  /**
   * The admin website is removed exactly when there are several websites
   * and it sits at key 0; then the count drops by one and the other
   * websites keep their keys and their order; otherwise nothing changes.
   */
  lemma WebsiteFilter(websites: Entries<Website>)
    requires Valid(websites)
    ensures |websites| > 1 && AdminAtKeyZero(websites) ==>
      && WithoutAdminWebsite(websites) == Drop(websites, IntKey(0))
      && |WithoutAdminWebsite(websites)| == |websites| - 1
      && !HasKey(WithoutAdminWebsite(websites), IntKey(0))
    ensures !(|websites| > 1 && AdminAtKeyZero(websites)) ==> WithoutAdminWebsite(websites) == websites
    ensures forall k :: k != IntKey(0) ==> Get(WithoutAdminWebsite(websites), k) == Get(websites, k)
  {
    UnsetIsDrop(websites, IntKey(0));
  }

  /** What a view variable holds. */
  datatype ViewValue = OptionVar(value: OptionValue) | PathVar(path: string) | WebsitesVar(websites: Entries<Website>)

  /** The template view: the variables assigned to it, in order, and the template chosen. */
  class View {
    var vars: seq<(string, ViewValue)>
    var template: Option<string>

    constructor ()
      ensures vars == [] && template == None
    {
      vars := [];
      template := None;
    }

    method Assign(name: string, value: ViewValue)
      modifies this
      ensures vars == old(vars) + [(name, value)] && template == old(template)
    {
      vars := vars + [(name, value)];
    }

    method SetTemplate(path: string)
      modifies this
      ensures template == Some(path) && vars == old(vars)
    {
      template := Some(path);
    }
  }

  /** The exception execute throws when Magento cannot be initialised. */
  datatype Error = CannotInitializeMagento

  class GenerateVHostCommand {
    var view: View?
    const magentoRootFolder: string
    /** The directory of the command's source file (__DIR__). */
    const commandDir: string

    constructor (magentoRootFolder: string, commandDir: string)
      ensures view == null
      ensures this.magentoRootFolder == magentoRootFolder && this.commandDir == commandDir
    {
      view := null;
      this.magentoRootFolder := magentoRootFolder;
      this.commandDir := commandDir;
    }

    /** The variables assigned to the view so far: nothing when there is no view yet. */
    ghost function Vars(): seq<(string, ViewValue)>
      reads this, view
    {
      if view == null then [] else view.vars
    }

    /** The template chosen so far. */
    ghost function Template(): Option<string>
      reads this, view
    {
      if view == null then None else view.template
    }

    /** _getBaseFolder */
    function BaseFolder(): string
    {
      commandDir + "/../../../../../res/vhost"
    }

    /** _getView: the view is created on the first call and the same one is returned after. */
    method GetView() returns (v: View)
      modifies this
      ensures view == v
      ensures old(view) != null ==> v == old(view)
      ensures old(view) == null ==> fresh(v)
      ensures v.vars == old(Vars()) && v.template == old(Template())
    {
      if view == null {
        view := new View();
      }
      v := view;
    }

    /** _addOptionsToView: every option, in order, under its camelCase name. */
    method AddOptionsToView(options: seq<(string, OptionValue)>)
      modifies this, view
      ensures view != null && (old(view) != null ==> view == old(view)) && (old(view) == null ==> fresh(view))
      ensures view.vars == old(Vars()) + ConvertedOptions(options)
      ensures view.template == old(Template())
    {
      var v := GetView();
      for i := 0 to |options|
        invariant view == v
        invariant v.vars == old(Vars()) + ConvertedOptions(options[..i])
        invariant v.template == old(Template())
      {
        var key := CamelizeOptionKey(options[i].0);
        v.Assign(key, OptionVar(options[i].1));
        assert ConvertedOptions(options[..i + 1]) == ConvertedOptions(options[..i]) + [(key, OptionVar(options[i].1))];
      }
      assert options[..|options|] == options;
    }

    /**
     * _addMagentoSettingsToView: the document root; each website's host
     * name taken from its base url (`hostOf` stands for parse_url with
     * PHP_URL_HOST); then the websites without the admin website.
     */
    method AddMagentoSettingsToView(websites: Entries<Website>, hostOf: string -> Option<string>)
      modifies this, view, set i | 0 <= i < |websites| :: websites[i].1
      ensures view != null && (old(view) != null ==> view == old(view)) && (old(view) == null ==> fresh(view))
      ensures view.vars == old(Vars())
        + [("documentRoot", PathVar(magentoRootFolder)), ("websites", WebsitesVar(WithoutAdminWebsite(websites)))]
      ensures view.template == old(Template())
      ensures forall i :: 0 <= i < |websites| ==> websites[i].1.hostName == hostOf(websites[i].1.unsecureBaseUrl)
    {
      var v := GetView();
      v.Assign("documentRoot", PathVar(magentoRootFolder));
      for i := 0 to |websites|
        invariant view == v
        invariant v.vars == old(Vars()) + [("documentRoot", PathVar(magentoRootFolder))]
        invariant v.template == old(Template())
        invariant forall j :: 0 <= j < i ==> websites[j].1.hostName == hostOf(websites[j].1.unsecureBaseUrl)
      {
        var website := websites[i].1;
        website.hostName := hostOf(website.unsecureBaseUrl);
      }
      var filtered := websites;
      if |filtered| > 1 && AdminAtKeyZero(filtered) {
        filtered := Unset(filtered, IntKey(0));
      }
      v.Assign("websites", WebsitesVar(filtered));
    }

    /**
     * execute once Magento is detected: `initialised` is what initMagento
     * reports. The options and the Magento settings go to the view, then
     * exactly one generator runs: nginx when asked for, which sets nothing,
     * apache otherwise, which chooses the apache template.
     */
    method Execute(initialised: bool, options: seq<(string, OptionValue)>,
                   websites: Entries<Website>, hostOf: string -> Option<string>)
      returns (outcome: Result<(), Error>)
      modifies this, view, set i | 0 <= i < |websites| :: websites[i].1
      ensures outcome.Success? <==> initialised
      ensures !initialised ==> view == old(view) && Vars() == old(Vars()) && Template() == old(Template())
      ensures initialised ==> view != null && (old(view) != null ==> view == old(view)) && (old(view) == null ==> fresh(view))
      ensures initialised ==>
        Vars() == old(Vars()) + ConvertedOptions(options) + [("documentRoot", PathVar(magentoRootFolder)), ("websites", WebsitesVar(WithoutAdminWebsite(websites)))]
      ensures initialised && NginxRequested(options) ==> Template() == old(Template())
      ensures initialised && !NginxRequested(options) ==> Template() == Some(BaseFolder() + "/apache/apacheVhost.phtml")
      ensures initialised ==>
        forall i :: 0 <= i < |websites| ==> websites[i].1.hostName == hostOf(websites[i].1.unsecureBaseUrl)
      ensures !initialised ==>
        forall i :: 0 <= i < |websites| ==> websites[i].1.hostName == old(websites[i].1.hostName)
    {
      if !initialised {
        return Failure(CannotInitializeMagento);
      }
      AddOptionsToView(options);
      AddMagentoSettingsToView(websites, hostOf);
      var nginx := OptionLookup(options, "nginx");
      if nginx.Some? && Truthy(nginx.value) {
        // _generateNginxVhost has an empty body.
      } else {
        GenerateApacheVhost();
      }
      outcome := Success(());
    }

    /** _generateApacheVhost: the apache template under the base folder. */
    method GenerateApacheVhost()
      modifies this, view
      ensures view != null && (old(view) != null ==> view == old(view)) && (old(view) == null ==> fresh(view))
      ensures view.template == Some(BaseFolder() + "/apache/apacheVhost.phtml")
      ensures view.vars == old(Vars())
    {
      var v := GetView();
      v.SetTemplate(BaseFolder() + "/apache/apacheVhost.phtml");
    }
  }
}
