/** The current task-template catalogue (`TASK_TEMPLATES` and its lookup
    functions): a `default` template and a `tabular_extraction` template,
    neither with an output format. */
module TaskTemplates {
  import opened Wrappers
  import opened StrFormat
  import opened Catalogue

  /** The default template: the prompt, inside quotes, within fixed
      instructions. */
  const DefaultSegments: seq<Segment> := [
    Lit(@"
            From the provided webpage, extract information about: """),
    Hole("prompt"),
    Lit(@"""
            
            Requirements:
            1. The extracted information must be 100% factual and found on the page (DO NOT Infer Data).
            2. For each piece of information, provide a citation with the exact text and location from the webpage.
            3. Provide a location_url to the specific part of the webpage where the information was found.
                - To do this, you can use the following format:
                    - Select a part of the text (e.g., a paragraph, a section, or a phrase) that contains the information or a part of the answer itself.
                    - Use the text selection to create a URL that points to that part of the webpage.
                    - Ensure to use URL-encoding for any special characters in the text selection.
                    - Ensure to use '#:~text=' to indicate the text selection in the URL.
                        - Example: If a part of the text is ""This is a sample text"", the URL might look like:
                            - https://example.com/page#:~text=This%20is%20a%20sample%20text
            4. Only include information that is relevant to the prompt.

        ")
  ]

  /** The tabular template: site, category, url, data points, a pagination
      sentence and a filter sentence. */
  const TabularIntro := @"
        Extract structured data from "

  const TabularAbout := @" about "

  const TabularNavigate := @".

        1. Navigate to "

  const TabularIdentify := @"
        2. Identify the table or structured data containing information about "

  /** The break and indentation that start each line of the tabular text. */
  const LineBreak := "\n        "

  /** The numbered lead-ins of the pagination and filter lines. */
  const PagesNumber := "4. "
  const PaginationLead := PagesNumber + "If pagination exists, navigate through "
  const FiltersLead := "5. If filters are available, apply "

  /** The third line of the tabular text, with the break after it. */
  const TabularExtractLine :=
    "\n        3. Extract all rows and columns while preserving the relationship between data points" + LineBreak

  const TabularPagesLead := TabularExtractLine + PaginationLead + "at least the first "

  const TabularFiltersLead := " pages and extract all data" + LineBreak + FiltersLead

  /** The closing instruction, on its own line after a blank one. */
  const FormatNoteLine := @"
        Format the extracted data in JSON format with appropriate headers following AgentOutput Format. If any data points are missing, mark them as ""N/A"" rather than leaving them blank.
        "

  /** What follows the filter line: a blank line and the closing
      instruction. */
  const TabularFormatNote := "\n" + FormatNoteLine

  const TabularClosing := " before extraction" + TabularFormatNote

  const TabularSegments: seq<Segment> := [
    Lit(TabularIntro),
    Hole("website"),
    Lit(TabularAbout),
    Hole("data_category"),
    Lit(TabularNavigate),
    Hole("url"),
    Lit(TabularIdentify),
    Hole("data_points"),
    Lit(TabularPagesLead),
    Hole("no_pages"),
    Lit(TabularFiltersLead),
    Hole("filters"),
    Lit(TabularClosing)
  ]

  const Templates: Catalogue := [
    ("default", Entry(DefaultSegments, None)),
    ("tabular_extraction", Entry(TabularSegments, None))
  ]

  /** `get_task_template`. */
  function GetTaskTemplate(name: string): (e: Entry)
    ensures name == "default" ==> e == Templates[0].1
    ensures name == "tabular_extraction" ==> e == Templates[1].1
    ensures name != "default" && name != "tabular_extraction" ==> e == Templates[0].1
  {
    assert Names(Templates) == ["default", "tabular_extraction"];
    Get(Templates, name)
  }

  /** `get_available_templates`. */
  function AvailableTemplates(): (ns: seq<string>)
    ensures ns == ["default", "tabular_extraction"]
    ensures "default" in ns
  {
    Names(Templates)
  }

  /** The default template's only placeholder is `prompt`. */
  lemma DefaultPlaceholders()
    ensures Placeholders(DefaultSegments) == {"prompt"}
    ensures WellFormed(DefaultSegments)
  {
    assert PlainName("prompt");
  }

  /** The tabular template's placeholders are exactly its six fields. */
  lemma TabularPlaceholders()
    ensures Placeholders(TabularSegments) == {"website", "data_category", "url", "data_points", "no_pages", "filters"}
  {
    TabularHoles();
    SixHoles(TabularSegments, "website", "data_category", "url", "data_points", "no_pages", "filters");
  }

  /** The tabular template alternates literal text with its six holes. */
  lemma TabularHoles()
    ensures |TabularSegments| == 13
    ensures TabularSegments[1] == Hole("website") && TabularSegments[3] == Hole("data_category")
    ensures TabularSegments[5] == Hole("url") && TabularSegments[7] == Hole("data_points")
    ensures TabularSegments[9] == Hole("no_pages") && TabularSegments[11] == Hole("filters")
    ensures forall k :: 0 <= k < 13 && k % 2 == 0 ==> TabularSegments[k].Lit?
  {
  }

  /** Thirteen segments that alternate text and holes have the six hole
      names as their placeholders. */
  lemma SixHoles(s: seq<Segment>, a: string, b: string, c: string, d: string, e: string, f: string)
    requires |s| == 13
    requires s[1] == Hole(a) && s[3] == Hole(b) && s[5] == Hole(c)
    requires s[7] == Hole(d) && s[9] == Hole(e) && s[11] == Hole(f)
    requires forall k :: 0 <= k < 13 && k % 2 == 0 ==> s[k].Lit?
    ensures Placeholders(s) == {a, b, c, d, e, f}
  {
    var names := {a, b, c, d, e, f};
    forall n ensures n in Placeholders(s) <==> n in names {
      PlaceholdersSpec(s, n);
      if n in names {
        assert n == a ==> s[1] == Hole(n);
        assert n == b ==> s[3] == Hole(n);
        assert n == c ==> s[5] == Hole(n);
        assert n == d ==> s[7] == Hole(n);
        assert n == e ==> s[9] == Hole(n);
        assert n == f ==> s[11] == Hole(n);
      }
      if exists k :: 0 <= k < |s| && s[k] == Hole(n) {
        var k :| 0 <= k < |s| && s[k] == Hole(n);
        assert k % 2 == 1;
        assert k in {1, 3, 5, 7, 9, 11};
      }
    }
  }

  /** The tabular template as its pagination and filter lines are evidently
      meant to read: the two holes stand alone on their lines, since the
      sentences put in them carry their own numbers and wording. */
  const IntendedTabularSegments: seq<Segment> := TabularSegments[..8] + [
    Lit(TabularExtractLine),
    Hole("no_pages"),
    Lit(LineBreak),
    Hole("filters"),
    Lit(TabularFormatNote)
  ]

  /** The corrected template's pagination and filter holes, each between
      two literal texts. */
  lemma IntendedSlots()
    ensures |IntendedTabularSegments| == 13
    ensures IntendedTabularSegments[8] == Lit(TabularExtractLine) && IntendedTabularSegments[9] == Hole("no_pages")
    ensures IntendedTabularSegments[10] == Lit(LineBreak) && IntendedTabularSegments[11] == Hole("filters")
    ensures IntendedTabularSegments[12] == Lit(TabularFormatNote)
    ensures forall k :: 0 <= k < 8 ==> IntendedTabularSegments[k] == TabularSegments[k]
  {
  }

  /** The corrected template has the same six placeholders. */
  lemma IntendedPlaceholders()
    ensures Placeholders(IntendedTabularSegments) == Placeholders(TabularSegments)
  {
    var s, t := IntendedTabularSegments, TabularSegments;
    IntendedSlots();
    TabularSlots();
    assert forall k :: 0 <= k < 13 ==> (s[k].Hole? <==> t[k].Hole?) && (s[k].Hole? ==> s[k].name == t[k].name);
    SameHoles(s, t);
  }

  /** The texts around the pagination and filter holes end with the
      numbered lead-ins of their lines; the filter line ends the text
      before a line break. */
  lemma LeadIns()
    ensures TabularPagesLead == TabularExtractLine + (PaginationLead + "at least the first ")
    ensures TabularFiltersLead == (" pages and extract all data" + LineBreak) + FiltersLead
    ensures TabularExtractLine == TabularExtractLine[..|TabularExtractLine| - |LineBreak|] + LineBreak
    ensures TabularFormatNote == "\n" + FormatNoteLine
  {
    FormatNoteSplit();
  }

  /** The closing note starts on a line of its own. */
  lemma FormatNoteSplit()
    ensures TabularFormatNote == "\n" + FormatNoteLine
  {
  }

  /** The pagination and filter holes, each between two literal texts. */
  lemma TabularSlots()
    ensures |TabularSegments| == 13
    ensures TabularSegments[8] == Lit(TabularPagesLead) && TabularSegments[9] == Hole("no_pages")
    ensures TabularSegments[10] == Lit(TabularFiltersLead) && TabularSegments[11] == Hole("filters")
    ensures TabularSegments[12] == Lit(TabularClosing)
  {
  }

  lemma TabularWellFormed()
    ensures WellFormed(TabularSegments)
  {
    TabularPlaceholders();
    TabularNames();
  }

  lemma TabularNames()
    ensures PlainName("website") && PlainName("data_category") && PlainName("url")
    ensures PlainName("data_points") && PlainName("no_pages") && PlainName("filters")
  {
  }

  /** Neither current template has an output format. */
  lemma NoOutputFormats()
    ensures forall k :: 0 <= k < |Templates| ==> Templates[k].1.outputFormat.None?
  {
  }

  /** Formatting the default template succeeds exactly when `prompt` is
      given; the tabular one needs all six of its fields. */
  lemma TemplateArguments(args: map<string, string>)
    ensures Format(Render(DefaultSegments), args).Ok? <==> "prompt" in args
    ensures Format(Render(TabularSegments), args).Ok? <==>
      {"website", "data_category", "url", "data_points", "no_pages", "filters"} <= args.Keys
  {
    DefaultPlaceholders();
    TabularPlaceholders();
    TabularWellFormed();
    FormatSucceeds(DefaultSegments, args);
    FormatSucceeds(TabularSegments, args);
  }
}
