/**
 * The web client's catalogue of ready-made tasks: each template pre-fills an intent's
 * goal, sample inputs, budget and deadline.
 */
module TaskTemplates {
  import opened Wrappers
  import opened Json

  /** The three template categories. */
  datatype Category = NLP | Extraction | Vision

  /** A ready-made task. */
  datatype Template = Template(
    id: string,
    name: string,
    description: string,
    goal: string,
    sampleInputs: seq<(string, Json)>,
    defaultBudget: real,
    defaultSla: int,
    category: Category)

  /** The sample texts the templates pre-fill. */
  const EventSample: string := "Global Scoop AI Hackathon\n\nNov 22\U{2013}23, 2025 8:30 AM \U{2013} 5:30 PM\n\nSanta Clara"
  const SentimentSample: string := "I absolutely loved the product! The quality is outstanding and the customer service was exceptional. Highly recommended!"
  const SummarySample: string := "Artificial Intelligence has revolutionized many industries. Machine learning algorithms can now process vast amounts of data and make predictions with remarkable accuracy. Deep learning, a subset of machine learning, uses neural networks with multiple layers to learn complex patterns. These technologies are being applied in healthcare, finance, transportation, and many other sectors to improve efficiency and decision-making."
  const ContactSample: string := "John Doe\nEmail: john.doe@example.com\nPhone: (555) 123-4567\nAddress: 123 Main St, San Francisco, CA 94102"
  const InvoiceSample: string := "INVOICE #12345\nDate: January 15, 2025\nBill To: Acme Corp\n123 Business St\nItems:\n- Service A: $500.00\n- Service B: $300.00\nTotal: $800.00"
  const KeywordsSample: string := "Machine learning and artificial intelligence are transforming the technology landscape. Deep neural networks enable computers to recognize patterns and make intelligent decisions."
  const ClassifySample: string := "The stock market experienced significant volatility today as tech companies reported mixed earnings results. Analysts suggest a cautious approach for investors."
  const TranslateSample: string := "Hello, how are you today?"

  /** The catalogue, in display order. */
  const Templates: seq<Template> := [
    Template("extract_event", "Extract Event Information",
      "Extract event details (title, date, time, location) from text or images", "extract_event",
      [("text", JStr(EventSample))],
      0.1, 5000, Extraction),
    Template("analyze_sentiment", "Analyze Sentiment",
      "Determine the emotional tone (positive, negative, neutral) of text", "analyze_sentiment",
      [("text", JStr(SentimentSample))],
      0.05, 3000, NLP),
    Template("summarize_text", "Summarize Text",
      "Create a concise summary of long-form content", "summarize_text",
      [("text", JStr(SummarySample))],
      0.08, 4000, NLP),
    Template("extract_contact_info", "Extract Contact Information",
      "Extract names, emails, phone numbers, and addresses from text", "extract_contact_info",
      [("text", JStr(ContactSample))],
      0.06, 3000, Extraction),
    Template("parse_invoice", "Parse Invoice",
      "Extract structured data from invoice documents", "parse_invoice",
      [("text", JStr(InvoiceSample))],
      0.1, 5000, Vision),
    Template("extract_keywords", "Extract Keywords",
      "Identify key terms and phrases from text content", "extract_keywords",
      [("text", JStr(KeywordsSample))],
      0.04, 2000, Extraction),
    Template("classify_text", "Classify Text",
      "Categorize text into predefined categories or topics", "classify_text",
      [("text", JStr(ClassifySample))],
      0.05, 3000, NLP),
    Template("translate_text", "Translate Text",
      "Translate text from one language to another", "translate_text",
      [("text", JStr(TranslateSample)), ("targetLanguage", JStr("Spanish"))],
      0.03, 2500, NLP)
  ]

  /** The first template of `ts` with this id. */
  function FindById(ts: seq<Template>, id: string): (r: Option<Template>)
    ensures r.Some? ==> r.value in ts && r.value.id == id
    ensures r.None? <==> forall i :: 0 <= i < |ts| ==> ts[i].id != id
    ensures r.Some? ==> exists i :: 0 <= i < |ts| && ts[i] == r.value && forall j :: 0 <= j < i ==> ts[j].id != id
  {
    if ts == [] then None
    else if ts[0].id == id then Some(ts[0])
    else
      var r := FindById(ts[1..], id);
      assert forall i :: 1 <= i < |ts| ==> ts[1..][i - 1] == ts[i];
      r
  }

  /** `getTemplateById`: the catalogue entry with this id, or nothing. */
  function GetTemplateById(id: string): (r: Option<Template>)
    ensures r.Some? ==> r.value in Templates && r.value.id == id
    ensures r.None? <==> forall t :: t in Templates ==> t.id != id
  {
    FindById(Templates, id)
  }

  /**
   * The catalogue is well formed: ids are distinct, each goal equals its id, and every
   * budget and deadline is positive.
   */
  lemma CatalogueWellFormed()
    ensures forall i, j :: 0 <= i < j < |Templates| ==> Templates[i].id != Templates[j].id
    ensures forall t :: t in Templates ==> t.goal == t.id && t.defaultBudget > 0.0 && t.defaultSla > 0
  {
  }

  /** Every template is found by its own id, so no template is shadowed by an earlier one. */
  lemma EveryTemplateFindable(t: Template)
    requires t in Templates
    ensures GetTemplateById(t.id) == Some(t)
  {
    CatalogueWellFormed();
    FoundWhenIdsDistinct(Templates, t);
  }

  /** In a list with distinct ids, looking up an entry's id finds that entry. */
  lemma FoundWhenIdsDistinct(ts: seq<Template>, t: Template)
    requires t in ts
    requires forall i, j :: 0 <= i < j < |ts| ==> ts[i].id != ts[j].id
    ensures FindById(ts, t.id) == Some(t)
  {
    var k :| 0 <= k < |ts| && ts[k] == t;
    var r := FindById(ts, t.id);
    var i :| 0 <= i < |ts| && ts[i] == r.value && forall j :: 0 <= j < i ==> ts[j].id != t.id;
    assert i == k;
  }
}
