/** The older four-entry task catalogue (`TASK_TEMPLATES` of the task
    configuration): `default`, `summary`, `detailed` and `qa`. All but
    `default` also carry an output format, a JSON example whose braces are
    doubled in the source so that formatting gives them back single. */
module LegacyTaskConfig {
  import opened Wrappers
  import opened StrFormat
  import opened Catalogue

  const DefaultSegments: seq<Segment> := [
    Lit(@"
            From the provided webpage, extract information about: """),
    Hole("prompt"),
    Lit(@"""
            
            Requirements:
            1. The extracted information must be 100% factual and found on the page.
            2. For each piece of information, provide a citation with the exact text and location from the webpage.
            3. Provide a location_url to the specific part of the webpage where the information was found.
                - To do this, you can use the following format:
                    - Select a part of the text (e.g., a paragraph, a section, or a phrase) that contains the information or a part of the answer itself.
                    - Use the text selection to create a URL that points to that part of the webpage.
                    - Ensure to use URL-encoding for any special characters in the text selection.
                    - Ensure to use '#:~text=' to indicate the text selection in the URL.
                        - Example: If a part of the text is ""This is a sample text"", the URL might look like:
                            - https://example.com/page#:~text=This%20is%20a%20sample%20text
            4. Only include information that is relevant to the prompt.
        ")
  ]

  const SummarySegments: seq<Segment> := [
    Lit(@"
            From the provided webpage, create a concise summary about: """),
    Hole("prompt"),
    Lit(@"""
            
            Requirements:
            1. Focus on creating a brief, easy-to-understand summary.
            2. Include only the most important facts related to the prompt.
            3. Aim for 3-5 key points that address the core of the prompt.
            4. For each key point, provide a citation with the exact text from the webpage.
            
            Additional context: "),
    Hole("additional_context"),
    Lit(@"
        ")
  ]

  /** The JSON example of the summary output, with single braces. */
  const SummaryOutput: string := @"
            Format the output as a JSON with the following structure:
            {
                ""summary"": ""A concise 1-2 paragraph summary addressing the prompt"",
                ""key_points"": [
                    ""First key point about the topic"",
                    ""Second key point about the topic"",
                    ""Third key point about the topic""
                ],
                ""citations"": [
                    {
                        ""text"": ""exact text from webpage"",
                        ""location"": ""description of where this was found"",
                        ""confidence"": 0.95
                    }
                ]
            }
        "

  const DetailedSegments: seq<Segment> := [
    Lit(@"
            From the provided webpage, extract comprehensive and detailed information about: """),
    Hole("prompt"),
    Lit(@"""
            
            Requirements:
            1. Extract all relevant information on the page related to the prompt.
            2. Organize the information in a hierarchical structure with main topics and subtopics.
            3. Include numerical data, dates, and specific details where available.
            4. For each piece of information, provide a citation with the exact text and location.
            5. Include context to help understand the significance of the information.
            
            Additional context: "),
    Hole("additional_context"),
    Lit(@"
        ")
  ]

  const DetailedOutput: string := @"
            Format the output as a JSON with the following structure:
            {
                ""main_topics"": [
                    {
                        ""title"": ""Topic Title"",
                        ""content"": ""Detailed explanation"",
                        ""subtopics"": [
                            {
                                ""title"": ""Subtopic Title"",
                                ""content"": ""Detailed explanation""
                            }
                        ]
                    }
                ],
                ""key_data_points"": [
                    {
                        ""label"": ""Data point name"",
                        ""value"": ""Data point value"",
                        ""context"": ""Why this matters""
                    }
                ],
                ""citations"": [
                    {
                        ""text"": ""exact text from webpage"",
                        ""location"": ""description of where this was found"",
                        ""confidence"": 0.95
                    }
                ],
                ""format_type"": ""detailed""
            }
        "

  const QaSegments: seq<Segment> := [
    Lit(@"
            From the provided webpage, answer questions about: """),
    Hole("prompt"),
    Lit(@"""
            
            Requirements:
            1. Treat the prompt as a question that needs a direct answer.
            2. Provide a clear, concise answer based only on information from the webpage.
            3. If the question cannot be answered from the webpage content, clearly state this.
            4. Include quotes from the webpage that support your answer.
            5. Provide confidence levels for your answer.
            
            Additional context: "),
    Hole("additional_context"),
    Lit(@"
        ")
  ]

  const QaOutput: string := @"
            Format the output as a JSON with the following structure:
            {
                ""question"": ""The original question from the prompt"",
                ""answer"": ""Direct answer to the question"",
                ""supporting_evidence"": [
                    ""Quote from the webpage that supports the answer"",
                    ""Another relevant quote""
                ],
                ""confidence_level"": 0.95,
                ""citations"": [
                    {
                        ""text"": ""exact text from webpage"",
                        ""location"": ""description of where this was found""
                    }
                ]
            }
        "

  const Templates: Catalogue := [
    ("default", Entry(DefaultSegments, None)),
    ("summary", Entry(SummarySegments, Some([Lit(SummaryOutput)]))),
    ("detailed", Entry(DetailedSegments, Some([Lit(DetailedOutput)]))),
    ("qa", Entry(QaSegments, Some([Lit(QaOutput)])))
  ]

  /** `get_task_template`: the named entry, or `default` for any other
      name. */
  function GetTaskTemplate(name: string): (e: Entry)
    ensures name in AvailableTemplates() ==> Some(e) == Find(Templates, name)
    ensures name !in AvailableTemplates() ==> e == Templates[0].1
  {
    Get(Templates, name)
  }

  /** `get_available_templates`: the keys in declaration order. */
  function AvailableTemplates(): (ns: seq<string>)
    ensures ns == ["default", "summary", "detailed", "qa"]
  {
    Names(Templates)
  }

  /** `default` has no output format; the other three have one. */
  lemma OutputFormatPresence()
    ensures Templates[0].1.outputFormat.None?
    ensures forall k :: 1 <= k < |Templates| ==> Templates[k].1.outputFormat.Some?
  {
  }

  /** `default` has only the `{prompt}` placeholder; the other three have
      both `{prompt}` and `{additional_context}`. */
  lemma PlaceholderSets()
    ensures Placeholders(DefaultSegments) == {"prompt"}
    ensures Placeholders(SummarySegments) == {"prompt", "additional_context"}
    ensures Placeholders(DetailedSegments) == {"prompt", "additional_context"}
    ensures Placeholders(QaSegments) == {"prompt", "additional_context"}
  {
  }

  /** Every task format is a well-formed template. */
  lemma TaskFormatsWellFormed()
    ensures WellFormed(DefaultSegments) && WellFormed(SummarySegments)
    ensures WellFormed(DetailedSegments) && WellFormed(QaSegments)
  {
    PlaceholderSets();
    ArgumentNamesPlain();
    NamedHolesWellFormed(DefaultSegments, {"prompt"});
    NamedHolesWellFormed(SummarySegments, {"prompt", "additional_context"});
    NamedHolesWellFormed(DetailedSegments, {"prompt", "additional_context"});
    NamedHolesWellFormed(QaSegments, {"prompt", "additional_context"});
  }

  /** Both argument names are keyword fields. */
  lemma ArgumentNamesPlain()
    ensures PlainName("prompt") && PlainName("additional_context")
  {
  }

  /** A template whose placeholders are all plain names is well-formed. */
  lemma NamedHolesWellFormed(segs: seq<Segment>, names: set<string>)
    requires Placeholders(segs) == names
    requires forall n :: n in names ==> PlainName(n)
    ensures WellFormed(segs)
  {
  }

  /** Formatting an output format yields the JSON example with single
      braces, whatever the arguments. */
  lemma OutputFormatsUnescape(args: map<string, string>)
    ensures Templates[1].1.outputFormat.Some? && Format(Render(Templates[1].1.outputFormat.value), args) == Ok(SummaryOutput)
    ensures Templates[2].1.outputFormat.Some? && Format(Render(Templates[2].1.outputFormat.value), args) == Ok(DetailedOutput)
    ensures Templates[3].1.outputFormat.Some? && Format(Render(Templates[3].1.outputFormat.value), args) == Ok(QaOutput)
  {
    OutputFormatEntries();
    LiteralFormatUnescapes(Templates[1].1.outputFormat, SummaryOutput, args);
    LiteralFormatUnescapes(Templates[2].1.outputFormat, DetailedOutput, args);
    LiteralFormatUnescapes(Templates[3].1.outputFormat, QaOutput, args);
  }

  /** An output format made of one literal text formats to that text. */
  lemma LiteralFormatUnescapes(format: Option<seq<Segment>>, t: string, args: map<string, string>)
    requires format == Some([Lit(t)])
    ensures Format(Render(format.value), args) == Ok(t)
  {
    LiteralFormatsToItself(t, args);
  }

  /** Each output format is its JSON example as a single literal text. */
  lemma OutputFormatEntries()
    ensures Templates[1].1.outputFormat == Some([Lit(SummaryOutput)])
    ensures Templates[2].1.outputFormat == Some([Lit(DetailedOutput)])
    ensures Templates[3].1.outputFormat == Some([Lit(QaOutput)])
  {
  }
}
