/**
 * The configuration form of the Config Generator view and the function that
 * turns it into the text of a `docusaurus.config.js` file.
 *
 * The form is one record; `handleChange` replaces one of its fields with the
 * raw string an input element reports. The generated text is a single
 * template literal: fixed text with the form's fields interpolated into it.
 * It is modelled as a sequence of segments (literal text, a field, or the
 * footer-style expression) rendered left to right.
 */
module ConfigGenerator {

  /** `ConfigFormState`. The TypeScript type narrows `preset` and `theme` to
      string unions, but `handleChange` stores whatever string the element
      reports, so both are strings here and `WellTyped` states the unions. */
  datatype ConfigFormState = ConfigFormState(
    title: string,
    tagline: string,
    url: string,
    baseUrl: string,
    organizationName: string,
    projectName: string,
    preset: string,
    theme: string)

  /** The names of the form's fields: the `name` attribute of an input. */
  datatype Field =
    | Title | Tagline | Url | BaseUrl | OrganizationName | ProjectName | Preset | Theme

  /** The TypeScript unions `'classic' | 'facebook'` and `'light' | 'dark' | 'custom'`. */
  predicate WellTyped(form: ConfigFormState)
  {
    && form.preset in {"classic", "facebook"}
    && form.theme in {"light", "dark", "custom"}
  }

  /** The form's state when the view is first shown. */
  function InitialForm(): ConfigFormState
  {
    ConfigFormState(
      title := "My Site",
      tagline := "Dinosaurs are cool",
      url := "https://your-docusaurus-site.example.com",
      baseUrl := "/",
      organizationName := "facebook",
      projectName := "docusaurus",
      preset := "classic",
      theme := "custom")
  }

  /** `form[name]`. */
  function Get(form: ConfigFormState, name: Field): string
  {
    match name
    case Title => form.title
    case Tagline => form.tagline
    case Url => form.url
    case BaseUrl => form.baseUrl
    case OrganizationName => form.organizationName
    case ProjectName => form.projectName
    case Preset => form.preset
    case Theme => form.theme
  }

  /** `{ ...form, [name]: value }`: the named field takes the value and every
      other field keeps its own. */
  function WithField(form: ConfigFormState, name: Field, value: string): (r: ConfigFormState)
    ensures Get(r, name) == value
    ensures forall other :: other != name ==> Get(r, other) == Get(form, other)
  {
    match name
    case Title => form.(title := value)
    case Tagline => form.(tagline := value)
    case Url => form.(url := value)
    case BaseUrl => form.(baseUrl := value)
    case OrganizationName => form.(organizationName := value)
    case ProjectName => form.(projectName := value)
    case Preset => form.(preset := value)
    case Theme => form.(theme := value)
  }

  /** Two forms that agree on every field are the same form, so the two
      ensures of `WithField` determine its result. */
  lemma FormsEqualByFields(a: ConfigFormState, b: ConfigFormState)
    requires forall name :: Get(a, name) == Get(b, name)
    ensures a == b
  {
    assert Get(a, Title) == Get(b, Title);
    assert Get(a, Tagline) == Get(b, Tagline);
    assert Get(a, Url) == Get(b, Url);
    assert Get(a, BaseUrl) == Get(b, BaseUrl);
    assert Get(a, OrganizationName) == Get(b, OrganizationName);
    assert Get(a, ProjectName) == Get(b, ProjectName);
    assert Get(a, Preset) == Get(b, Preset);
    assert Get(a, Theme) == Get(b, Theme);
  }

  /** The view renders a control for every field but `theme`: six inputs and
      the preset select. */
  predicate HasControl(name: Field)
  {
    name != Theme
  }

  /** A value the control named `name` can report: the select offers only the
      options `classic` and `facebook`; the text inputs report any string. */
  predicate ControlValue(name: Field, value: string)
  {
    name == Preset ==> value in {"classic", "facebook"}
  }

  /** One change event: the `name` and `value` of its target element. */
  datatype Change = Change(name: Field, value: string)

  /** The form after a series of change events, applied in order. */
  function ApplyChanges(form: ConfigFormState, changes: seq<Change>): ConfigFormState
    decreases |changes|
  {
    if changes == [] then form
    else
      var last := changes[|changes| - 1];
      WithField(ApplyChanges(form, changes[..|changes| - 1]), last.name, last.value)
  }

  /** A change reported by one of the rendered controls. */
  predicate FromControls(changes: seq<Change>)
  {
    forall i :: 0 <= i < |changes| ==>
      HasControl(changes[i].name) && ControlValue(changes[i].name, changes[i].value)
  }

  /** No rendered control edits the theme, so it keeps its initial value. */
  lemma {:induction false} ControlsKeepTheme(form: ConfigFormState, changes: seq<Change>)
    requires FromControls(changes)
    ensures ApplyChanges(form, changes).theme == form.theme
    decreases |changes|
  {
    if changes != [] {
      var n := |changes| - 1;
      assert FromControls(changes[..n]) by {
        forall i | 0 <= i < n
          ensures HasControl(changes[..n][i].name) && ControlValue(changes[..n][i].name, changes[..n][i].value)
        {
          assert changes[..n][i] == changes[i];
        }
      }
      ControlsKeepTheme(form, changes[..n]);
      assert HasControl(changes[n].name);
      assert Get(ApplyChanges(form, changes), Theme) == Get(ApplyChanges(form, changes[..n]), Theme);
    }
  }

  /** Edits made through the rendered controls keep the form within its
      TypeScript type. */
  lemma {:induction false} ControlsKeepWellTyped(form: ConfigFormState, changes: seq<Change>)
    requires WellTyped(form)
    requires FromControls(changes)
    ensures WellTyped(ApplyChanges(form, changes))
    decreases |changes|
  {
    if changes != [] {
      var n := |changes| - 1;
      assert FromControls(changes[..n]) by {
        forall i | 0 <= i < n
          ensures HasControl(changes[..n][i].name) && ControlValue(changes[..n][i].name, changes[..n][i].value)
        {
          assert changes[..n][i] == changes[i];
        }
      }
      ControlsKeepWellTyped(form, changes[..n]);
      var before := ApplyChanges(form, changes[..n]);
      var after := ApplyChanges(form, changes);
      assert Get(after, Theme) == Get(before, Theme);
      if changes[n].name == Preset {
        assert after.preset == changes[n].value;
      } else {
        assert Get(after, Preset) == Get(before, Preset);
      }
    }
  }

  /** The editor's state: the `form` state variable and its change handler. */
  class ConfigEditor {
    var form: ConfigFormState

    /** The view starts from the listed defaults. */
    constructor ()
      ensures form == InitialForm()
      ensures WellTyped(form) && form.preset == "classic" && form.theme == "custom"
    {
      form := InitialForm();
    }

    /** `handleChange`: set the field called `name` to `value`. */
    method HandleChange(name: Field, value: string)
      modifies this
      ensures form == WithField(old(form), name, value)
      ensures Get(form, name) == value
      ensures forall other :: other != name ==> Get(form, other) == Get(old(form), other)
    {
      form := WithField(form, name, value);
    }
  }

  // ---------------------------------------------------------------------
  // The generated configuration text
  // ---------------------------------------------------------------------

  /** `form.theme === 'custom' ? 'dark' : form.theme`. */
  function FooterStyle(theme: string): string
  {
    if theme == "custom" then "dark" else theme
  }

  /** The footer style maps `custom` to `dark` and keeps the other two themes,
      so a well-typed form always gets `light` or `dark`. */
  lemma FooterStyleIsLightOrDark(form: ConfigFormState)
    requires WellTyped(form)
    ensures FooterStyle(form.theme) in {"light", "dark"}
    ensures form.theme == "custom" ==> FooterStyle(form.theme) == "dark"
    ensures form.theme != "custom" ==> FooterStyle(form.theme) == form.theme
  {
  }

  /** One piece of a template literal: a short fixed text, one of the
      longer fixed texts, an interpolated field, or the interpolated
      footer-style expression. */
  datatype Segment = Text(text: string) | Fixed(piece: Piece) | Hole(name: Field) | FooterHole

  function RenderSegment(segment: Segment, form: ConfigFormState): string
  {
    match segment
    case Text(s) => s
    case Fixed(piece) => PieceText(piece)
    case Hole(name) => Get(form, name)
    case FooterHole => FooterStyle(form.theme)
  }

  /** A template literal's value: its segments' texts, in order, with nothing
      between them and no escaping of interpolated values. */
  function Render(segments: seq<Segment>, form: ConfigFormState): string
    decreases |segments|
  {
    if segments == [] then ""
    else RenderSegment(segments[0], form) + Render(segments[1..], form)
  }

  lemma {:induction false} RenderAppend(a: seq<Segment>, b: seq<Segment>, form: ConfigFormState)
    ensures Render(a + b, form) == Render(a, form) + Render(b, form)
    decreases |a|
  {
    if a == [] {
      assert a + b == b;
    } else {
      assert (a + b)[0] == a[0];
      assert (a + b)[1..] == a[1..] + b;
      RenderAppend(a[1..], b, form);
    }
  }

  /** The longer fixed texts of the template, between its interpolations. */
  datatype Piece =
      Header
    | FaviconAndUrlComment
    | BaseUrlComment
    | DeploymentComment
    | LinkPolicyAndLocales
    | DocsOptions
    | BlogAndThemeOptions
    | SocialCard
    | NavbarItems
    | GitHubItem
    | FooterLinks
    | Trailer

  function PieceText(piece: Piece): string
  {
    match piece
    case Header =>
        "/** @type {import('@docusaurus/types').Config} */\n"
        + "const config = {\n"
        + "  "
    case FaviconAndUrlComment =>
        ",\n"
        + "  favicon: 'img/favicon.ico',\n"
        + "\n"
        + "  // Set the production url of your site here\n"
        + "  "
    case BaseUrlComment =>
        ",\n"
        + "  // Set the /<baseUrl>/ pathname under which your site is served\n"
        + "  "
    case DeploymentComment =>
        ",\n"
        + "\n"
        + "  // GitHub pages deployment config.\n"
        + "  // If you aren't using GitHub pages, you don't need these.\n"
        + "  "
    case LinkPolicyAndLocales =>
        "  onBrokenLinks: 'throw',\n"
        + "  onBrokenMarkdownLinks: 'warn',\n"
        + "\n"
        + "  // Even if you don't use internationalization, you can use this field to set\n"
        + "  // useful metadata like html lang. For example, if your site is Chinese, you\n"
        + "  // may want to replace \"en\" with \"zh-Hans\".\n"
        + "  i18n: {\n"
        + "    defaultLocale: 'en',\n"
        + "    locales: ['en'],\n"
        + "  },\n"
        + "\n"
        + "  "
    case DocsOptions =>
        " */\n"
        + "      ({\n"
        + "        docs: {\n"
        + "          sidebarPath: './sidebars.js',\n"
        + "          "
    case BlogAndThemeOptions =>
        ",\n"
        + "        },\n"
        + "        blog: {\n"
        + "          showReadingTime: true,\n"
        + "        },\n"
        + "        theme: {\n"
        + "          customCss: './src/css/custom.css',\n"
        + "        },\n"
        + "      }),\n"
        + "    ],\n"
        + "  ],\n"
        + "\n"
    case SocialCard =>
        " */\n"
        + "    ({\n"
        + "      // Replace with your project's social card\n"
        + "      image: 'img/docusaurus-social-card.jpg',\n"
        + "      "
    case NavbarItems =>
        ",\n"
        + "          src: 'img/logo.svg',\n"
        + "        },\n"
        + "        items: [\n"
        + "          {\n"
        + "            type: 'docSidebar',\n"
        + "            sidebarId: 'tutorialSidebar',\n"
        + "            position: 'left',\n"
        + "            label: 'Tutorial',\n"
        + "          },\n"
        + "          {to: '/blog', label: 'Blog', position: 'left'},\n"
        + "          {\n"
        + "            "
    case GitHubItem =>
        ",\n"
        + "            label: 'GitHub',\n"
        + "            position: 'right',\n"
        + "          },\n"
        + "        ],\n"
        + "      },\n"
    case FooterLinks =>
        ",\n"
        + "        links: [\n"
        + "          {\n"
        + "            title: 'Docs',\n"
        + "            items: [\n"
        + "              {\n"
        + "                label: 'Tutorial',\n"
        + "                to: '/docs/intro',\n"
        + "              },\n"
        + "            ],\n"
        + "          },\n"
        + "          {\n"
        + "            title: 'Community',\n"
        + "            items: [\n"
        + "              {\n"
        + "                label: 'Stack Overflow',\n"
        + "                href: 'https://stackoverflow.com/questions/tagged/docusaurus',\n"
        + "              },\n"
        + "              {\n"
        + "                label: 'Discord',\n"
        + "                href: 'https://discordapp.com/invite/docusaurus',\n"
        + "              },\n"
        + "            ],\n"
        + "          },\n"
        + "        ],\n"
        + "        "
    case Trailer =>
        ",\n"
        + "      },\n"
        + "    }),\n"
        + "};\n"
        + "\n"
        + "export default config;"
  }

  /** The site block of the template: title, tagline, URLs and the
      deployment names. */
  const SiteBlock: seq<Segment> :=
    [ Fixed(Header),
      Text("title: '"),
      Hole(Title),
      Text("'"),
      Text(",\n  "),
      Text("tagline: '"),
      Hole(Tagline),
      Text("'"),
      Fixed(FaviconAndUrlComment),
      Text("url: '"),
      Hole(Url),
      Text("'"),
      Fixed(BaseUrlComment),
      Text("baseUrl: '"),
      Hole(BaseUrl),
      Text("'"),
      Fixed(DeploymentComment),
      Text("organizationName: '"),
      Hole(OrganizationName),
      Text("'"),
      Text(", // Usually your GitHub org/user name.\n  "),
      Text("projectName: '"),
      Hole(ProjectName),
      Text("'"),
      Text(", // Usually your repo name.\n\n") ]

  /** The link policy, the locales and the preset entry with its docs options. */
  const PresetsBlock: seq<Segment> :=
    [ Fixed(LinkPolicyAndLocales),
      Text("presets: [\n    [\n      '"),
      Hole(Preset),
      Text("',"),
      Text("\n      /** @type {"),
      Text("import('@docusaurus/preset-"),
      Hole(Preset),
      Text("').Options}"),
      Fixed(DocsOptions),
      Text("editUrl:\n            'https://github.com/"),
      Hole(OrganizationName),
      Text("/"),
      Hole(ProjectName),
      Text("/tree/main/'"),
      Fixed(BlogAndThemeOptions) ]

  /** The theme configuration up to the footer: social card and navbar. */
  const NavbarBlock: seq<Segment> :=
    [ Text("  themeConfig:\n    /** @type {"),
      Text("import('@docusaurus/preset-"),
      Hole(Preset),
      Text("').ThemeConfig}"),
      Fixed(SocialCard),
      Text("navbar: {\n        title: '"),
      Hole(Title),
      Text("'"),
      Text(",\n        logo: {\n          "),
      Text("alt: '"),
      Hole(Title),
      Text(" Logo'"),
      Fixed(NavbarItems),
      Text("href: 'https://github.com/"),
      Hole(OrganizationName),
      Text("/"),
      Hole(ProjectName),
      Text("'"),
      Fixed(GitHubItem) ]

  /** The footer and the end of the file. */
  const FooterBlock: seq<Segment> :=
    [ Text("      "),
      Text("footer: {\n        style: '"),
      FooterHole,
      Text("'"),
      Fixed(FooterLinks),
      Text("copyright: `Copyright © ${new Date().getFullYear()} "),
      Hole(Title),
      Text(", Inc. Built with Docusaurus.`"),
      Fixed(Trailer) ]

  /** `generateConfigString`: the configuration text for `form`, the four
      blocks of its template literal rendered one after the other. It reads
      nothing but `form`; the two escaped characters of the copyright line, a
      backquote and `${`, are plain text. */
  function GenerateConfigString(form: ConfigFormState): string
  {
    Render(SiteBlock, form) + Render(PresetsBlock, form) + Render(NavbarBlock, form) + Render(FooterBlock, form)
  }

  /** The whole template literal, for the statements about it as one piece. */
  const ConfigTemplate: seq<Segment> :=
    SiteBlock + PresetsBlock + NavbarBlock + FooterBlock

  // ---------------------------------------------------------------------
  // Where the fields land in the text
  // ---------------------------------------------------------------------

  /** `t` occurs in `s` starting at index `i`. */
  predicate OccursAt(t: string, s: string, i: int)
  {
    0 <= i && i + |t| <= |s| && s[i..i + |t|] == t
  }

  /** `t` occurs in `s` as a contiguous piece. */
  ghost predicate InfixOf(t: string, s: string)
  {
    exists i :: OccursAt(t, s, i)
  }

  lemma InfixOfMiddle(p: string, t: string, q: string)
    ensures OccursAt(t, p + t + q, |p|)
    ensures InfixOf(t, p + t + q)
  {
    assert (p + t + q)[|p|..|p| + |t|] == t;
    assert OccursAt(t, p + t + q, |p|);
  }

  lemma InfixOfTransitive(t: string, m: string, s: string)
    requires InfixOf(t, m) && InfixOf(m, s)
    ensures InfixOf(t, s)
  {
    var i :| OccursAt(t, m, i);
    var j :| OccursAt(m, s, j);
    forall k | 0 <= k < |t|
      ensures s[j + i + k] == t[k]
    {
      assert t[k] == m[i..i + |t|][k] == m[i + k];
      assert m[i + k] == s[j..j + |m|][i + k] == s[j + i + k];
    }
    assert s[j + i..j + i + |t|] == t;
    assert OccursAt(t, s, j + i);
  }

  /** The rendering of a window of segments occurs in the rendering of the
      whole sequence. */
  lemma RenderWindow(segments: seq<Segment>, i: nat, j: nat, form: ConfigFormState)
    requires i <= j <= |segments|
    ensures InfixOf(Render(segments[i..j], form), Render(segments, form))
  {
    assert segments == segments[..i] + segments[i..j] + segments[j..];
    RenderAppend(segments[..i] + segments[i..j], segments[j..], form);
    RenderAppend(segments[..i], segments[i..j], form);
    InfixOfMiddle(Render(segments[..i], form), Render(segments[i..j], form), Render(segments[j..], form));
  }

  lemma InfixOfFourParts(a: string, b: string, c: string, d: string)
    ensures InfixOf(a, a + b + c + d) && InfixOf(b, a + b + c + d)
    ensures InfixOf(c, a + b + c + d) && InfixOf(d, a + b + c + d)
  {
    InfixOfMiddle([], a, b + c + d);
    assert [] + a + (b + c + d) == a + b + c + d;
    InfixOfMiddle(a, b, c + d);
    assert a + b + (c + d) == a + b + c + d;
    InfixOfMiddle(a + b, c, d);
    InfixOfMiddle(a + b + c, d, []);
    assert a + b + c + d + [] == a + b + c + d;
  }

  /** Each block of the template renders to a piece of the output. */
  lemma BlocksInOutput(form: ConfigFormState)
    ensures InfixOf(Render(SiteBlock, form), GenerateConfigString(form))
    ensures InfixOf(Render(PresetsBlock, form), GenerateConfigString(form))
    ensures InfixOf(Render(NavbarBlock, form), GenerateConfigString(form))
    ensures InfixOf(Render(FooterBlock, form), GenerateConfigString(form))
  {
    InfixOfFourParts(Render(SiteBlock, form), Render(PresetsBlock, form),
                     Render(NavbarBlock, form), Render(FooterBlock, form));
  }

  /** The generator renders the whole template literal. */
  lemma GenerateRendersTemplate(form: ConfigFormState)
    ensures GenerateConfigString(form) == Render(ConfigTemplate, form)
  {
    RenderAppend(SiteBlock + PresetsBlock + NavbarBlock, FooterBlock, form);
    RenderAppend(SiteBlock + PresetsBlock, NavbarBlock, form);
    RenderAppend(SiteBlock, PresetsBlock, form);
  }

  /** Three consecutive segments render to their three texts, in order. */
  lemma RenderThree(segments: seq<Segment>, i: nat, form: ConfigFormState)
    requires i + 3 <= |segments|
    ensures Render(segments[i..i + 3], form)
         == RenderSegment(segments[i], form) + RenderSegment(segments[i + 1], form)
          + RenderSegment(segments[i + 2], form)
  {
    var w := segments[i..i + 3];
    assert w[0] == segments[i] && w[1..][0] == segments[i + 1] && w[1..][1..][0] == segments[i + 2];
    assert w[1..][1..][1..] == [];
    assert Render(w[1..][1..], form) == RenderSegment(segments[i + 2], form);
  }

  /** An interpolation between the literal that precedes it and the literal
      that follows it, at positions `i` to `i + 2` of a block, is a piece of
      the block's text. */
  lemma HoleInContext(block: seq<Segment>, i: nat, form: ConfigFormState,
                      before: string, hole: Segment, value: string, after: string)
    requires i + 3 <= |block|
    requires block[i] == Text(before) && block[i + 1] == hole && block[i + 2] == Text(after)
    requires RenderSegment(hole, form) == value
    ensures InfixOf(before + value + after, Render(block, form))
  {
    RenderThree(block, i, form);
    RenderWindow(block, i, i + 3, form);
  }

  /** Five consecutive segments `https://github.com/`-prefix,
      `organizationName`, `/`, `projectName`, suffix render to the repository
      address between that prefix and suffix. */
  lemma RepositoryLink(block: seq<Segment>, i: nat, form: ConfigFormState, prefix: string, suffix: string)
    requires i + 5 <= |block|
    requires block[i] == Text(prefix) && block[i + 4] == Text(suffix)
    requires block[i + 1] == Hole(OrganizationName)
    requires block[i + 2] == Text("/")
    requires block[i + 3] == Hole(ProjectName)
    ensures InfixOf(prefix + form.organizationName + "/" + form.projectName + suffix, Render(block, form))
  {
    var w := block[i..i + 5];
    var org, project := form.organizationName, form.projectName;
    assert w[4..] == [Text(suffix)];
    assert Render(w[4..], form) == suffix;
    assert w[3..][1..] == w[4..];
    assert Render(w[3..], form) == project + suffix;
    assert w[2..][1..] == w[3..];
    assert Render(w[2..], form) == "/" + (project + suffix);
    assert w[1..][1..] == w[2..];
    assert Render(w[1..], form) == org + ("/" + (project + suffix));
    assert Render(w, form) == prefix + (org + ("/" + (project + suffix)));
    assert prefix + (org + ("/" + (project + suffix))) == prefix + org + "/" + project + suffix;
    RenderWindow(block, i, i + 5, form);
  }

  // The interpolations in each block's text, one lemma each: the three or
  // five segments around an interpolation render to the text between the
  // key and the end of its value.

  lemma SiteTitle(form: ConfigFormState)
    ensures InfixOf("title: '" + form.title + "'", Render(SiteBlock, form))
  {
    HoleInContext(SiteBlock, 1, form, "title: '", Hole(Title), form.title, "'");
  }

  lemma SiteTagline(form: ConfigFormState)
    ensures InfixOf("tagline: '" + form.tagline + "'", Render(SiteBlock, form))
  {
    HoleInContext(SiteBlock, 5, form, "tagline: '", Hole(Tagline), form.tagline, "'");
  }

  lemma SiteUrl(form: ConfigFormState)
    ensures InfixOf("url: '" + form.url + "'", Render(SiteBlock, form))
  {
    HoleInContext(SiteBlock, 9, form, "url: '", Hole(Url), form.url, "'");
  }

  lemma SiteBaseUrl(form: ConfigFormState)
    ensures InfixOf("baseUrl: '" + form.baseUrl + "'", Render(SiteBlock, form))
  {
    HoleInContext(SiteBlock, 13, form, "baseUrl: '", Hole(BaseUrl), form.baseUrl, "'");
  }

  lemma SiteOrganization(form: ConfigFormState)
    ensures InfixOf("organizationName: '" + form.organizationName + "'", Render(SiteBlock, form))
  {
    HoleInContext(SiteBlock, 17, form, "organizationName: '", Hole(OrganizationName), form.organizationName, "'");
  }

  lemma SiteProject(form: ConfigFormState)
    ensures InfixOf("projectName: '" + form.projectName + "'", Render(SiteBlock, form))
  {
    HoleInContext(SiteBlock, 21, form, "projectName: '", Hole(ProjectName), form.projectName, "'");
  }

  lemma PresetEntry(form: ConfigFormState)
    ensures InfixOf("presets: [\n    [\n      '" + form.preset + "',", Render(PresetsBlock, form))
  {
    HoleInContext(PresetsBlock, 1, form, "presets: [\n    [\n      '", Hole(Preset), form.preset, "',");
  }

  lemma PresetOptionsType(form: ConfigFormState)
    ensures InfixOf("import('@docusaurus/preset-" + form.preset + "').Options}", Render(PresetsBlock, form))
  {
    HoleInContext(PresetsBlock, 5, form, "import('@docusaurus/preset-", Hole(Preset), form.preset, "').Options}");
  }

  lemma PresetEditUrl(form: ConfigFormState)
    ensures InfixOf("editUrl:\n            'https://github.com/" + form.organizationName + "/"
                    + form.projectName + "/tree/main/'", Render(PresetsBlock, form))
  {
    RepositoryLink(PresetsBlock, 9, form, "editUrl:\n            'https://github.com/", "/tree/main/'");
  }

  lemma NavbarThemeConfigType(form: ConfigFormState)
    ensures InfixOf("import('@docusaurus/preset-" + form.preset + "').ThemeConfig}", Render(NavbarBlock, form))
  {
    HoleInContext(NavbarBlock, 1, form, "import('@docusaurus/preset-", Hole(Preset), form.preset, "').ThemeConfig}");
  }

  lemma NavbarTitle(form: ConfigFormState)
    ensures InfixOf("navbar: {\n        title: '" + form.title + "'", Render(NavbarBlock, form))
  {
    HoleInContext(NavbarBlock, 5, form, "navbar: {\n        title: '", Hole(Title), form.title, "'");
  }

  lemma NavbarLogoAlt(form: ConfigFormState)
    ensures InfixOf("alt: '" + form.title + " Logo'", Render(NavbarBlock, form))
  {
    HoleInContext(NavbarBlock, 9, form, "alt: '", Hole(Title), form.title, " Logo'");
  }

  lemma NavbarGitHubHref(form: ConfigFormState)
    ensures InfixOf("href: 'https://github.com/" + form.organizationName + "/"
                    + form.projectName + "'", Render(NavbarBlock, form))
  {
    RepositoryLink(NavbarBlock, 13, form, "href: 'https://github.com/", "'");
  }

  lemma FooterStyleLine(form: ConfigFormState)
    ensures InfixOf("footer: {\n        style: '" + FooterStyle(form.theme) + "'", Render(FooterBlock, form))
  {
    HoleInContext(FooterBlock, 1, form, "footer: {\n        style: '", FooterHole, FooterStyle(form.theme), "'");
  }

  lemma FooterCopyright(form: ConfigFormState)
    ensures InfixOf("copyright: `Copyright © ${new Date().getFullYear()} " + form.title
                    + ", Inc. Built with Docusaurus.`", Render(FooterBlock, form))
  {
    HoleInContext(FooterBlock, 5, form, "copyright: `Copyright © ${new Date().getFullYear()} ", Hole(Title), form.title,
                  ", Inc. Built with Docusaurus.`");
  }

  // The fields in the generated text.

  /** Each field of the site block is written verbatim between single quotes
      after its key: no character of the value is escaped. */
  lemma SiteFieldsQuoted(form: ConfigFormState)
    ensures InfixOf("title: '" + form.title + "'", GenerateConfigString(form))
    ensures InfixOf("tagline: '" + form.tagline + "'", GenerateConfigString(form))
    ensures InfixOf("url: '" + form.url + "'", GenerateConfigString(form))
    ensures InfixOf("baseUrl: '" + form.baseUrl + "'", GenerateConfigString(form))
    ensures InfixOf("organizationName: '" + form.organizationName + "'", GenerateConfigString(form))
    ensures InfixOf("projectName: '" + form.projectName + "'", GenerateConfigString(form))
  {
    var block, output := Render(SiteBlock, form), GenerateConfigString(form);
    SiteTitle(form);
    SiteTagline(form);
    SiteUrl(form);
    SiteBaseUrl(form);
    SiteOrganization(form);
    SiteProject(form);
    BlocksInOutput(form);
    InfixOfTransitive("title: '" + form.title + "'", block, output);
    InfixOfTransitive("tagline: '" + form.tagline + "'", block, output);
    InfixOfTransitive("url: '" + form.url + "'", block, output);
    InfixOfTransitive("baseUrl: '" + form.baseUrl + "'", block, output);
    InfixOfTransitive("organizationName: '" + form.organizationName + "'", block, output);
    InfixOfTransitive("projectName: '" + form.projectName + "'", block, output);
  }

  /** Besides the `title` key, the title is the navbar title, the start of the
      logo's alt text and the owner in the copyright line. The year in that
      line is the text of a JavaScript expression, not a year: the generator
      reads no clock. */
  lemma TitleOccurrences(form: ConfigFormState)
    ensures InfixOf("navbar: {\n        title: '" + form.title + "'", GenerateConfigString(form))
    ensures InfixOf("alt: '" + form.title + " Logo'", GenerateConfigString(form))
    ensures InfixOf("copyright: `Copyright © ${new Date().getFullYear()} " + form.title
                    + ", Inc. Built with Docusaurus.`", GenerateConfigString(form))
  {
    var navbar, footer, output := Render(NavbarBlock, form), Render(FooterBlock, form), GenerateConfigString(form);
    NavbarTitle(form);
    NavbarLogoAlt(form);
    FooterCopyright(form);
    BlocksInOutput(form);
    InfixOfTransitive("navbar: {\n        title: '" + form.title + "'", navbar, output);
    InfixOfTransitive("alt: '" + form.title + " Logo'", navbar, output);
    InfixOfTransitive("copyright: `Copyright © ${new Date().getFullYear()} " + form.title
                      + ", Inc. Built with Docusaurus.`", footer, output);
  }

  /** The repository address `https://github.com/<organization>/<project>`
      is built twice: as the docs' edit URL, followed by `/tree/main/`, and as
      the navbar's GitHub link. */
  lemma GitHubLinks(form: ConfigFormState)
    ensures InfixOf("editUrl:\n            'https://github.com/" + form.organizationName + "/"
                    + form.projectName + "/tree/main/'", GenerateConfigString(form))
    ensures InfixOf("href: 'https://github.com/" + form.organizationName + "/"
                    + form.projectName + "'", GenerateConfigString(form))
  {
    var presets, navbar, output := Render(PresetsBlock, form), Render(NavbarBlock, form), GenerateConfigString(form);
    PresetEditUrl(form);
    NavbarGitHubHref(form);
    BlocksInOutput(form);
    InfixOfTransitive("editUrl:\n            'https://github.com/" + form.organizationName + "/"
                      + form.projectName + "/tree/main/'", presets, output);
    InfixOfTransitive("href: 'https://github.com/" + form.organizationName + "/"
                      + form.projectName + "'", navbar, output);
  }

  /** The preset is the name of the preset entry and, prefixed with
      `@docusaurus/preset-`, the module of both type comments. */
  lemma PresetOccurrences(form: ConfigFormState)
    ensures InfixOf("presets: [\n    [\n      '" + form.preset + "',", GenerateConfigString(form))
    ensures InfixOf("import('@docusaurus/preset-" + form.preset + "').Options}", GenerateConfigString(form))
    ensures InfixOf("import('@docusaurus/preset-" + form.preset + "').ThemeConfig}", GenerateConfigString(form))
  {
    var presets, navbar, output := Render(PresetsBlock, form), Render(NavbarBlock, form), GenerateConfigString(form);
    PresetEntry(form);
    PresetOptionsType(form);
    NavbarThemeConfigType(form);
    BlocksInOutput(form);
    InfixOfTransitive("presets: [\n    [\n      '" + form.preset + "',", presets, output);
    InfixOfTransitive("import('@docusaurus/preset-" + form.preset + "').Options}", presets, output);
    InfixOfTransitive("import('@docusaurus/preset-" + form.preset + "').ThemeConfig}", navbar, output);
  }

  /** The footer's style entry carries the style derived from the theme. */
  lemma FooterStyleEntry(form: ConfigFormState)
    ensures InfixOf("footer: {\n        style: '" + FooterStyle(form.theme) + "'", GenerateConfigString(form))
  {
    FooterStyleLine(form);
    BlocksInOutput(form);
    InfixOfTransitive("footer: {\n        style: '" + FooterStyle(form.theme) + "'",
                      Render(FooterBlock, form), GenerateConfigString(form));
  }
}
