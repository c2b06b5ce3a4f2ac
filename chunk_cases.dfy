/**
 * Worked cases of the chunk policy on concrete module ids: the typical shapes
 * of id the bundler hands to the hook (an application source file, a
 * dependency resolved under `node_modules`, a stylesheet), and the cases where
 * the order of the tests decides the bundle. Each pattern test is settled in a
 * small lemma of its own, and the bundle then follows from the
 * characterisations proved in `ManualChunks`.
 */
module ChunkCases {
  import opened Substring
  import opened ManualChunks

  /** A stylesheet goes to `index`. */
  lemma StylesheetCase()
    ensures Classify("styles/app.css") == Index
  {
    ContainsSlice("styles/app.css", 10, 14);
    assert "styles/app.css"[10..14] == ".css";
  }

  /** A stylesheet of a react package still goes to `index`: the `.css` test comes first. */
  lemma ReactStylesheetCase()
    ensures Classify("node_modules/react-toastify/dist/ReactToastify.css") == Index
  {
    var id := "node_modules/react-toastify/dist/ReactToastify.css";
    ContainsSlice(id, 46, 50);
    assert id[46..50] == ".css";
  }

  // The pre-bundled `react-dom` module: every `.` in it starts something other than `.css`.

  lemma PrebundledDomSkipPackageDir()
    ensures Contains("node_modules/.vite/deps/react-dom@18.2.0.js", ".css")
      == Contains(".vite/deps/react-dom@18.2.0.js", ".css")
  {
    assert "node_modules/.vite/deps/react-dom@18.2.0.js"
      == "node_modules/" + ".vite/deps/react-dom@18.2.0.js";
    SkipPiece("node_modules/", ".vite/deps/react-dom@18.2.0.js", ".css", 0);
  }

  lemma PrebundledDomSkipCacheDir()
    ensures Contains(".vite/deps/react-dom@18.2.0.js", ".css") == Contains(".2.0.js", ".css")
  {
    assert ".vite/deps/react-dom@18.2.0.js" == ".vite/deps/react-dom@18" + ".2.0.js";
    SkipPiece(".vite/deps/react-dom@18", ".2.0.js", ".css", 1);
  }

  lemma PrebundledDomNotStylesheet()
    ensures !IsStylesheet("node_modules/.vite/deps/react-dom@18.2.0.js")
  {
    PrebundledDomSkipPackageDir();
    PrebundledDomSkipCacheDir();
    MissingChar(".2.0.js", ".css", 'c');
  }

  /** The pre-bundled `react-dom` module goes to `react`. */
  lemma PrebundledDomCase()
    ensures Classify("node_modules/.vite/deps/react-dom@18.2.0.js") == React
  {
    var id := "node_modules/.vite/deps/react-dom@18.2.0.js";
    PrebundledDomNotStylesheet();
    ContainsSlice(id, 23, 34);
    assert id[23..34] == "/react-dom@";
  }

  /** A script whose only `.` starts its `.tsx` or `.js` extension is not a stylesheet. */
  lemma ScriptNotStylesheet(id: string, stem: string, ext: string)
    requires id == stem + ext
    requires stem != [] && '.' !in stem && ext in {".tsx", ".js"}
    ensures !IsStylesheet(id)
  {
    SkipPiece(stem, ext, ".css", 0);
    MissingChar(ext, ".css", 'c');
  }

  lemma ButtonInComponents()
    ensures InComponents("src/components/Button.tsx")
  {
    ContainsSlice("src/components/Button.tsx", 0, 14);
    assert "src/components/Button.tsx"[0..14] == "src/components";
  }

  /** An application component goes to `components`. */
  lemma ComponentCase()
    ensures Classify("src/components/Button.tsx") == Components
  {
    ScriptNotStylesheet("src/components/Button.tsx", "src/components/Button", ".tsx");
    MissingChar("src/components/Button.tsx", "react", 'a');
    ButtonInComponents();
    ComponentsBundleExactly("src/components/Button.tsx");
  }

  lemma LoginFormOutsideComponents()
    ensures !MentionsReact("src/forms/LoginForm.tsx")
    ensures !InComponents("src/forms/LoginForm.tsx")
  {
    MissingChar("src/forms/LoginForm.tsx", "react", 'a');
    MissingChar("src/forms/LoginForm.tsx", "src/components", 'p');
  }

  lemma LoginFormInForms()
    ensures InForms("src/forms/LoginForm.tsx")
  {
    ContainsSlice("src/forms/LoginForm.tsx", 0, 9);
    assert "src/forms/LoginForm.tsx"[0..9] == "src/forms";
  }

  /** An application form goes to `forms`. */
  lemma FormCase()
    ensures Classify("src/forms/LoginForm.tsx") == Forms
  {
    ScriptNotStylesheet("src/forms/LoginForm.tsx", "src/forms/LoginForm", ".tsx");
    LoginFormOutsideComponents();
    LoginFormInForms();
    FormsBundleExactly("src/forms/LoginForm.tsx");
  }

  // Every `r` in the dashboard screen's id starts something other than `react`.

  lemma DashboardFileNoReact()
    ensures !Contains("reens/Dashboard.tsx", "react")
  {
    assert "reens/Dashboard.tsx" == "reens/Dashboa" + "rd.tsx";
    SkipPiece("reens/Dashboa", "rd.tsx", "react", 2);
    MissingChar("rd.tsx", "react", 'e');
  }

  lemma DashboardDirsNoReact()
    ensures !Contains("rc/screens/Dashboard.tsx", "react")
  {
    assert "rc/screens/Dashboard.tsx" == "rc/sc" + "reens/Dashboard.tsx";
    SkipPiece("rc/sc", "reens/Dashboard.tsx", "react", 1);
    DashboardFileNoReact();
  }

  lemma DashboardNoReact()
    ensures !MentionsReact("src/screens/Dashboard.tsx")
  {
    assert "src/screens/Dashboard.tsx" == "s" + "rc/screens/Dashboard.tsx";
    SkipPiece("s", "rc/screens/Dashboard.tsx", "react", 0);
    DashboardDirsNoReact();
  }

  lemma DashboardOutsideComponentsAndForms()
    ensures !InComponents("src/screens/Dashboard.tsx")
    ensures !InForms("src/screens/Dashboard.tsx")
  {
    MissingChar("src/screens/Dashboard.tsx", "src/components", 'p');
    MissingChar("src/screens/Dashboard.tsx", "src/forms", 'f');
  }

  lemma DashboardInScreens()
    ensures InScreens("src/screens/Dashboard.tsx")
  {
    ContainsSlice("src/screens/Dashboard.tsx", 0, 11);
    assert "src/screens/Dashboard.tsx"[0..11] == "src/screens";
  }

  /** An application screen goes to `screens`, although `Dashboard` spells part of `react`. */
  lemma ScreenCase()
    ensures Classify("src/screens/Dashboard.tsx") == Screens
  {
    ScriptNotStylesheet("src/screens/Dashboard.tsx", "src/screens/Dashboard", ".tsx");
    DashboardNoReact();
    DashboardOutsideComponentsAndForms();
    DashboardInScreens();
    ScreensBundleExactly("src/screens/Dashboard.tsx");
  }

  lemma PlainDependencyOutsideComponents()
    ensures !InComponents("node_modules/some-lib/index.js")
  {
    MissingChar("node_modules/some-lib/index.js", "src/components", 'c');
  }

  lemma PlainDependencyOutsideForms()
    ensures !InForms("node_modules/some-lib/index.js")
  {
    MissingChar("node_modules/some-lib/index.js", "src/forms", 'f');
  }

  lemma PlainDependencyOutsideScreens()
    ensures !InScreens("node_modules/some-lib/index.js")
  {
    MissingChar("node_modules/some-lib/index.js", "src/screens", 'c');
  }

  /** A dependency that matches no test goes to `index`. */
  lemma PlainDependencyCase()
    ensures Classify("node_modules/some-lib/index.js") == Index
  {
    ScriptNotStylesheet("node_modules/some-lib/index.js", "node_modules/some-lib/index", ".js");
    MissingChar("node_modules/some-lib/index.js", "react", 'a');
    PlainDependencyOutsideComponents();
    PlainDependencyOutsideForms();
    PlainDependencyOutsideScreens();
    IndexBundleExactly("node_modules/some-lib/index.js");
  }

  lemma ReactTableNotCoreFramework()
    ensures !IsCoreFramework("src/components/reactTable.tsx")
  {
    MissingChar("src/components/reactTable.tsx", "/react@", '@');
    MissingChar("src/components/reactTable.tsx", "/react-dom@", '@');
    MissingChar("src/components/reactTable.tsx", "/react-router-dom@", '@');
  }

  lemma ReactTableMentionsReact()
    ensures MentionsReact("src/components/reactTable.tsx")
  {
    ContainsSlice("src/components/reactTable.tsx", 15, 20);
    assert "src/components/reactTable.tsx"[15..20] == "react";
  }

  /**
   * An application component whose file name mentions react lands in
   * `react-vendor`, not `components`: the `/react/` test comes first.
   */
  lemma ReactNamedComponentCase()
    ensures Classify("src/components/reactTable.tsx") == ReactVendor
  {
    ScriptNotStylesheet("src/components/reactTable.tsx", "src/components/reactTable", ".tsx");
    ReactTableNotCoreFramework();
    ReactTableMentionsReact();
    ReactVendorBundleExactly("src/components/reactTable.tsx");
  }
}
