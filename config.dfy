// The Thymer URL the desktop app reports (desktop/config.go).

module Config {
  import opened Common

  /** The two fields of the saved configuration that the URL depends on. */
  datatype Config = Config(workspace: string, thymerUrl: string)

  /** `ThymerURL`: a stored URL wins; otherwise the URL is built from the workspace,
    * which is a sub-domain of thymer.com unless it already names a domain. */
  function ThymerURL(c: Config): (u: string)
    ensures c.thymerUrl != "" ==> u == c.thymerUrl
    ensures c.thymerUrl == "" && c.workspace == "" ==> u == "https://app.thymer.com"
    ensures c.thymerUrl == "" && c.workspace != "" && '.' !in c.workspace ==> u == "https://" + c.workspace + ".thymer.com"
    ensures c.thymerUrl == "" && '.' in c.workspace ==> u == "https://" + c.workspace
  {
    if c.thymerUrl != "" then c.thymerUrl
    else if c.workspace == "" then "https://app.thymer.com"
    else if '.' !in c.workspace then "https://" + c.workspace + ".thymer.com"
    else "https://" + c.workspace
  }

  /** Without a stored URL the result is always an https URL whose host names a full domain. */
  lemma BuiltUrlIsFullDomain(c: Config)
    requires c.thymerUrl == ""
    ensures StartsWith(ThymerURL(c), "https://")
    ensures '.' in ThymerURL(c)[8..]
  {
    var u := ThymerURL(c);
    assert u[..8] == "https://";
    if c.workspace == "" {
      assert u[8..][3] == '.';
    } else if '.' !in c.workspace {
      var ws := c.workspace;
      assert u[8..] == ws + ".thymer.com";
      assert u[8..][|ws|] == '.';
    } else {
      assert u[8..] == c.workspace;
    }
  }

  /** The host of a built URL starts with the workspace name. */
  lemma BuiltUrlKeepsWorkspace(c: Config)
    requires c.thymerUrl == "" && c.workspace != ""
    ensures StartsWith(ThymerURL(c)[8..], c.workspace)
  {
    var u := ThymerURL(c);
    if '.' !in c.workspace {
      assert u[8..] == c.workspace + ".thymer.com";
    } else {
      assert u[8..] == c.workspace;
    }
  }
}
