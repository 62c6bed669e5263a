/** The content templates of `src/services/templateService.js`: the fixed
    table of eight templates, the section expansion with its defaults, the
    per-section recommendations, and the schema.org object. The later
    definitions of `getRecommendations` and `generateSchema` (lines 161 and
    184) are the ones in force; the empty ones above them are overridden. */
module TemplateService {
  import opened Wrappers

  /** A value of the caller's `data` object: a string, a number or an array
      of strings. */
  datatype Value = Text(s: string) | Number(n: int) | Items(items: seq<string>)

  /** JavaScript truthiness: the empty string and zero are falsy. */
  predicate Truthy(v: Value) {
    match v
    case Text(s) => s != ""
    case Number(n) => n != 0
    case Items(_) => true
  }

  /** `data[key] || fallback`. */
  function OrElse(data: map<string, Value>, key: string, fallback: Value): (r: Value)
    ensures key in data && Truthy(data[key]) ==> r == data[key]
    ensures !(key in data && Truthy(data[key])) ==> r == fallback
  {
    if key in data && Truthy(data[key]) then data[key] else fallback
  }

  datatype Template = Template(sections: seq<string>, schema: string, requiredKeywords: nat, recommendedLength: string)

  const BlogPostSections: seq<string> :=
    ["Title", "Meta Description", "Introduction", "Key Takeaways", "Main Content Sections",
     "Expert Insights", "Practical Examples", "FAQ Section", "Conclusion", "Call to Action"]

  const CaseStudySections: seq<string> :=
    ["Client Overview", "Challenge", "Goals", "Solution Implementation", "Results and Metrics",
     "Client Testimonial", "Key Learnings", "Next Steps"]

  /** `this.templates`. */
  const Templates: map<string, Template> := map[
    "blog-post" := Template(BlogPostSections, "BlogPosting", 3, "1500-2500 words"),
    "landing-page" := Template(
      ["Hero Section", "Value Proposition", "Key Benefits", "Social Proof", "Feature Breakdown",
       "Pricing Options", "Testimonials", "FAQ Section", "Primary CTA"],
      "WebPage", 5, "800-1500 words"),
    "product-review" := Template(
      ["Executive Summary", "Product Overview", "Key Features Analysis", "Performance Testing",
       "User Experience", "Pros and Cons", "Competitor Comparison", "Price Analysis", "Verdict",
       "Recommendations"],
      "Review", 4, "2000-3000 words"),
    "how-to-guide" := Template(
      ["Problem Statement", "Solution Overview", "Required Materials/Tools", "Step-by-Step Instructions",
       "Common Pitfalls", "Expert Tips", "Troubleshooting", "Success Indicators", "FAQ Section",
       "Next Steps"],
      "HowTo", 4, "1500-2500 words"),
    "social-post" := Template(
      ["Hook", "Core Message", "Value Proposition", "Social Proof", "Call to Action"],
      "SocialMediaPosting", 2, "50-250 words"),
    "email-sequence" := Template(
      ["Subject Line", "Preview Text", "Personal Opening", "Value Statement", "Main Message",
       "Social Proof", "Primary CTA", "Secondary CTA", "P.S. Section"],
      "EmailMessage", 2, "300-500 words"),
    "case-study" := Template(CaseStudySections, "Article", 3, "1000-2000 words"),
    "product-description" := Template(
      ["Product Name", "USP Statement", "Key Benefits", "Feature Details", "Technical Specifications",
       "Use Cases", "Package Contents", "Warranty Information", "Purchase Options"],
      "Product", 4, "500-1000 words")
  ]

  // ---------------------------------------------------------------------
  // getRecommendations

  /** The section-specific advice table of `getRecommendations`. */
  const Recommendations: map<string, string> := map[
    "Title" := "Use a compelling and keyword-rich title (50-60 characters)",
    "Meta Description" := "Write a compelling summary in 150-160 characters",
    "Introduction" := "Hook readers with a strong opening and include primary keyword naturally",
    "Key Takeaways" := "List 3-5 main points using bullet points",
    "Main Content Sections" := "Use H2 and H3 headings with keywords, keep paragraphs under 3 sentences",
    "Expert Insights" := "Include quotes, statistics, or research findings with citations",
    "Practical Examples" := "Provide real-world examples or case studies",
    "FAQ Section" := "Include 4-6 common questions using question-based keywords",
    "Conclusion" := "Summarize key points and include a clear takeaway",
    "Call to Action" := "Use action verbs and create urgency",
    "Hero Section" := "Include unique value proposition and primary CTA",
    "Value Proposition" := "Focus on benefits, not features",
    "Social Proof" := "Add testimonials, reviews, or case study snippets",
    "Feature Breakdown" := "Use bullet points and icons for scanability",
    "Package Contents" := "List all items included with specifications",
    "Technical Specifications" := "Use tables for easy comparison"
  ]

  const GeneralAdvice := "Follow general SEO best practices for this section"

  /** `getRecommendations(type, section)`: the table's advice for a known
      section, whatever the template type, and the general advice for any
      other section. It is never empty. */
  function GetRecommendations(kind: string, section: string): (r: string)
    ensures section in Recommendations ==> r == Recommendations[section]
    ensures section !in Recommendations ==> r == GeneralAdvice
    ensures r != ""
  {
    if section in Recommendations && Recommendations[section] != "" then Recommendations[section]
    else GeneralAdvice
  }

  /** Every section of a blog post has its own advice. */
  lemma BlogPostFullyAdvised(section: string)
    requires section in Templates["blog-post"].sections
    ensures GetRecommendations("blog-post", section) != GeneralAdvice
  {
    assert Templates["blog-post"].sections == BlogPostSections;
    BlogPostSectionsAdvised(section);
  }

  lemma BlogPostSectionsAdvised(section: string)
    requires section in BlogPostSections
    ensures section in Recommendations && Recommendations[section] != GeneralAdvice
  {
  }

  /** No section of a case study has its own advice: every one gets the
      general advice. */
  lemma CaseStudyGeneralAdvice(section: string)
    requires section in Templates["case-study"].sections
    ensures GetRecommendations("case-study", section) == GeneralAdvice
  {
    assert Templates["case-study"].sections == CaseStudySections;
    CaseStudySectionsUnadvised(section);
  }

  lemma CaseStudySectionsUnadvised(section: string)
    requires section in CaseStudySections
    ensures section !in Recommendations
  {
  }

  // ---------------------------------------------------------------------
  // generateSchema

  /** One step of a guide: `{'@type': 'HowToStep', position, text}`. */
  datatype HowToStep = HowToStep(stepType: string, position: nat, text: string)

  /** `{'@type': 'Rating', ratingValue, bestRating, worstRating}`. */
  datatype Rating = Rating(ratingType: string, ratingValue: Value, bestRating: string, worstRating: string)

  /** `author`: `{'@type': 'Person', name}`. */
  datatype Person = Person(personType: string, name: Value)

  /** `publisher.logo`: `{'@type': 'ImageObject', url}`. */
  datatype ImageObject = ImageObject(imageType: string, url: Value)

  /** `publisher`: `{'@type': 'Organization', name, logo}`. */
  datatype Organization = Organization(organizationType: string, name: Value, logo: ImageObject)

  /** The template-specific part of the schema: nothing, a review's body and
      rating, or a guide's steps (absent when `data` has none). */
  datatype SchemaExtra =
    | NoExtra
    | ReviewExtra(reviewBody: Option<Value>, reviewRating: Rating)
    | HowToExtra(step: Option<seq<HowToStep>>)

  /** The schema.org object. */
  datatype Schema = Schema(
    context: string,
    schemaType: string,
    headline: Value,
    description: Value,
    author: Person,
    publisher: Organization,
    extra: SchemaExtra)

  /** Calling `.map` on a value that is not an array. */
  const StepsNotArray := "TypeError: step list is not an array"

  /** `steps.map((step, index) => ({'@type': 'HowToStep', position: index + 1, text: step}))`. */
  function StepsOf(items: seq<string>): (r: seq<HowToStep>)
    ensures |r| == |items|
    ensures forall i :: 0 <= i < |r| ==> r[i] == HowToStep("HowToStep", i + 1, items[i])
  {
    seq(|items|, i requires 0 <= i < |items| => HowToStep("HowToStep", i + 1, items[i]))
  }

  /** `generateSchema` fails exactly when a how-to guide's step list is
      present but not an array. */
  predicate SchemaFails(kind: string, data: map<string, Value>) {
    kind == "how-to-guide" && "Step-by-Step Instructions" in data && !data["Step-by-Step Instructions"].Items?
  }

  /** What the schema of a known template type holds, field by field. The
      base object carries the template's schema name, and `headline`,
      `description`, the author's, the publisher's and the logo's fields
      taken from `data` with `''` in place of a missing or falsy value, under
      their fixed schema.org types. A product review adds `reviewBody`
      (possibly absent) and a rating that defaults to '5' out of '5', worst
      '1'; a how-to guide adds its steps numbered 1, 2, ... in input order,
      or none when `data` has no step list; other types add nothing. */
  ghost predicate SchemaOf(kind: string, data: map<string, Value>, s: Schema)
    requires kind in Templates
  {
    && s.context == "https://schema.org"
    && s.schemaType == Templates[kind].schema
    && s.headline == OrElse(data, "Title", Text(""))
    && s.description == OrElse(data, "Meta Description", Text(""))
    && s.author == Person("Person", OrElse(data, "author", Text("")))
    && s.publisher == Organization("Organization", OrElse(data, "publisher", Text("")),
                                   ImageObject("ImageObject", OrElse(data, "publisherLogo", Text(""))))
    && (kind == "product-review" ==>
          && s.extra.ReviewExtra?
          && s.extra.reviewBody == (if "Main Content Sections" in data then Some(data["Main Content Sections"]) else None)
          && s.extra.reviewRating == Rating("Rating", OrElse(data, "rating", Text("5")), "5", "1"))
    && (kind == "how-to-guide" ==>
          && s.extra.HowToExtra?
          && ("Step-by-Step Instructions" !in data <==> s.extra.step.None?)
          && (s.extra.step.Some? ==>
                && data["Step-by-Step Instructions"].Items?
                && var items := data["Step-by-Step Instructions"].items;
                   && |s.extra.step.value| == |items|
                   && forall i :: 0 <= i < |items| ==>
                        s.extra.step.value[i] == HowToStep("HowToStep", i + 1, items[i])))
    && (kind != "product-review" && kind != "how-to-guide" ==> s.extra == NoExtra)
  }

  /** `SchemaOf` leaves no field open: two schemas it describes for the
      same type and data are equal. */
  lemma SchemaOfUnique(kind: string, data: map<string, Value>, s1: Schema, s2: Schema)
    requires kind in Templates
    requires SchemaOf(kind, data, s1) && SchemaOf(kind, data, s2)
    ensures s1 == s2
  {
    if kind == "how-to-guide" && s1.extra.step.Some? {
      assert s1.extra.step.value == s2.extra.step.value;
    }
  }

  /** `generateSchema(type, data)` for a known template type: the schema
      described by `SchemaOf`, or the TypeError of mapping over a step list
      that is not an array. */
  method GenerateSchema(kind: string, data: map<string, Value>) returns (r: Result<Schema, string>)
    requires kind in Templates
    ensures r.Failure? <==> SchemaFails(kind, data)
    ensures r.Failure? ==> r.error == StepsNotArray
    ensures r.Success? ==> SchemaOf(kind, data, r.value)
  {
    var schema := Schema(
      "https://schema.org",
      Templates[kind].schema,
      OrElse(data, "Title", Text("")),
      OrElse(data, "Meta Description", Text("")),
      Person("Person", OrElse(data, "author", Text(""))),
      Organization("Organization", OrElse(data, "publisher", Text("")),
                   ImageObject("ImageObject", OrElse(data, "publisherLogo", Text("")))),
      NoExtra);
    if kind == "product-review" {
      var body := if "Main Content Sections" in data then Some(data["Main Content Sections"]) else None;
      schema := schema.(extra := ReviewExtra(body, Rating("Rating", OrElse(data, "rating", Text("5")), "5", "1")));
    } else if kind == "how-to-guide" {
      if "Step-by-Step Instructions" !in data {
        schema := schema.(extra := HowToExtra(None));
      } else {
        var steps := data["Step-by-Step Instructions"];
        if !steps.Items? {
          return Failure(StepsNotArray);
        }
        schema := schema.(extra := HowToExtra(Some(StepsOf(steps.items))));
      }
    }
    return Success(schema);
  }

  // ---------------------------------------------------------------------
  // generateFromTemplate

  datatype Section = Section(title: string, content: Value, recommendations: string)

  datatype Metadata = Metadata(recommendedLength: string, requiredKeywords: nat, kind: string)

  datatype Generated = Generated(sections: seq<Section>, schema: Schema, metadata: Metadata)

  const TemplateNotFound := "Template not found"

  /** `template.sections.map(...)`. */
  function SectionsOf(kind: string, sections: seq<string>, data: map<string, Value>): (r: seq<Section>)
    ensures |r| == |sections|
    ensures forall i :: 0 <= i < |r| ==>
      r[i] == Section(sections[i], OrElse(data, sections[i], Text("")), GetRecommendations(kind, sections[i]))
  {
    seq(|sections|, i requires 0 <= i < |sections| =>
      Section(sections[i], OrElse(data, sections[i], Text("")), GetRecommendations(kind, sections[i])))
  }

  /** `generateFromTemplate(type, data)`: an unknown type is
      "Template not found"; a known one succeeds unless its schema fails.
      The result has one section per template section, in template order,
      titled by the section name, holding `data[section]` or `''`, and the
      section's advice; the schema of `SchemaOf`; and metadata copying the
      template's length and keyword count and echoing the type. */
  method GenerateFromTemplate(kind: string, data: map<string, Value>) returns (r: Result<Generated, string>)
    ensures r.Success? <==> kind in Templates && !SchemaFails(kind, data)
    ensures kind !in Templates ==> r == Failure(TemplateNotFound)
    ensures kind in Templates && r.Failure? ==> r.error == StepsNotArray
    ensures r.Success? ==>
      && kind in Templates
      && |r.value.sections| == |Templates[kind].sections|
      && (forall i :: 0 <= i < |r.value.sections| ==>
            && r.value.sections[i].title == Templates[kind].sections[i]
            && r.value.sections[i].content == OrElse(data, Templates[kind].sections[i], Text(""))
            && r.value.sections[i].recommendations == GetRecommendations(kind, Templates[kind].sections[i]))
      && SchemaOf(kind, data, r.value.schema)
      && r.value.metadata == Metadata(Templates[kind].recommendedLength, Templates[kind].requiredKeywords, kind)
  {
    if kind !in Templates {
      return Failure(TemplateNotFound);
    }
    var template := Templates[kind];
    var schema := GenerateSchema(kind, data);
    if schema.Failure? {
      return Failure(schema.error);
    }
    var sections := SectionsOf(kind, template.sections, data);
    return Success(Generated(sections, schema.value,
      Metadata(template.recommendedLength, template.requiredKeywords, kind)));
  }
}
