/** The knowledge-base builder: product and FAQ records become the documents
    that are embedded for retrieval. Each product gives one general document,
    then one document per optional field it has, in the fixed order care
    instructions, usage instructions, benefits, sustainability; after all
    products, each FAQ gives one document. The documents are then split into
    two index-aligned lists, the texts and the metadata dictionaries. */
module KnowledgeBase {
  import opened Support

  /** A product record. The optional fields are keys the record may lack;
      `price` is the decimal text Python prints for the price. */
  datatype Product = Product(
    id: string,
    name: string,
    category: string,
    description: string,
    price: string,
    careInstructions: Option<string>,
    usageInstructions: Option<string>,
    benefits: Option<seq<string>>,
    sustainability: Option<string>)

  datatype Faq = Faq(question: string, answer: string)

  type Metadata = map<string, string>

  datatype Document = Document(content: string, metadata: Metadata)

  /** The `type` tag of each optional field's document, by field number. */
  const OptionalKinds: seq<string> := ["care_instructions", "usage_instructions", "benefits", "sustainability"]

  /** Whether the product has optional field number `field`. */
  predicate Has(p: Product, field: nat) {
    if field == 0 then p.careInstructions.Some?
    else if field == 1 then p.usageInstructions.Some?
    else if field == 2 then p.benefits.Some?
    else if field == 3 then p.sustainability.Some?
    else false
  }

  /** The general document every product yields first. */
  function GeneralDocument(p: Product): Document
  {
    Document("Product Name: " + p.name + "\nCategory: " + p.category + "\nDescription: " + p.description
             + "\nPrice: $" + p.price,
             map["type" := "product", "id" := p.id, "category" := p.category])
  }

  /** The document for optional field `field` of a product that has it:
      a heading naming the product, a line break and the field's text (the
      benefits joined by ", "), tagged with the field's kind and the
      product's id. */
  function OptionalDocument(p: Product, field: nat): Document
    requires Has(p, field)
  {
    var content :=
      if field == 0 then "Care Instructions for " + p.name + ":\n" + p.careInstructions.value
      else if field == 1 then "Usage Instructions for " + p.name + ":\n" + p.usageInstructions.value
      else if field == 2 then "Benefits of " + p.name + ":\n" + Join(", ", p.benefits.value)
      else "Sustainability information for " + p.name + ":\n" + p.sustainability.value;
    Document(content, map["type" := OptionalKinds[field], "product_id" := p.id])
  }

  /** Field number `field` when the product has it. */
  function PresentAt(p: Product, field: nat): seq<nat> {
    if Has(p, field) then [field] else []
  }

  /** The optional fields the product has, in the fixed order. */
  function PresentFields(p: Product): seq<nat> {
    PresentAt(p, 0) + PresentAt(p, 1) + PresentAt(p, 2) + PresentAt(p, 3)
  }

  /** The document of optional field `field` when the product has it. */
  function OptionalAt(p: Product, field: nat): seq<Document> {
    if Has(p, field) then [OptionalDocument(p, field)] else []
  }

  /** The documents of the optional fields the product has. */
  function OptionalDocuments(p: Product): seq<Document> {
    OptionalAt(p, 0) + OptionalAt(p, 1) + OptionalAt(p, 2) + OptionalAt(p, 3)
  }

  /** All the documents of one product. */
  function ProductDocuments(p: Product): seq<Document> {
    [GeneralDocument(p)] + OptionalDocuments(p)
  }

  /** The documents of a list of products, in order. */
  function ProductsDocuments(products: seq<Product>): seq<Document> {
    Flatten(products, ProductDocuments)
  }

  function FaqDocument(f: Faq): Document {
    Document("Q: " + f.question + "\nA: " + f.answer, map["type" := "faq"])
  }

  function FaqsDocuments(faqs: seq<Faq>): (documents: seq<Document>)
    ensures |documents| == |faqs|
    ensures forall i :: 0 <= i < |faqs| ==> documents[i] == FaqDocument(faqs[i])
  {
    seq(|faqs|, i requires 0 <= i < |faqs| => FaqDocument(faqs[i]))
  }

  /** Every document built from the products and FAQs: product documents
      first, then FAQ documents. */
  function Documents(products: seq<Product>, faqs: seq<Faq>): seq<Document> {
    ProductsDocuments(products) + FaqsDocuments(faqs)
  }

  /** How many optional fields a product has. */
  function PresentCount(p: Product): nat {
    (if p.careInstructions.Some? then 1 else 0) + (if p.usageInstructions.Some? then 1 else 0)
    + (if p.benefits.Some? then 1 else 0) + (if p.sustainability.Some? then 1 else 0)
  }

  /** One document per product plus one per optional field present. */
  function ProductDocumentCount(products: seq<Product>): nat {
    if products == [] then 0
    else ProductDocumentCount(products[..|products| - 1]) + 1 + PresentCount(products[|products| - 1])
  }

  /** `documents` are the documents of `fields`, position by position. */
  predicate Aligned(p: Product, documents: seq<Document>, fields: seq<nat>) {
    && |documents| == |fields|
    && forall i :: 0 <= i < |fields| ==> Has(p, fields[i]) && documents[i] == OptionalDocument(p, fields[i])
  }

  lemma AlignedAppend(p: Product, documents: seq<Document>, fields: seq<nat>,
                      more: seq<Document>, moreFields: seq<nat>)
    requires Aligned(p, documents, fields) && Aligned(p, more, moreFields)
    ensures Aligned(p, documents + more, fields + moreFields)
  {
    forall i | |fields| <= i < |fields| + |moreFields|
      ensures (documents + more)[i] == more[i - |fields|] && (fields + moreFields)[i] == moreFields[i - |fields|]
    {
    }
  }

  /** The optional documents line up with the present fields: the `i`-th
      optional document is the one of the `i`-th present field. */
  lemma OptionalDocumentsAligned(p: Product)
    ensures Aligned(p, OptionalDocuments(p), PresentFields(p))
  {
    AlignedAppend(p, OptionalAt(p, 0), PresentAt(p, 0), OptionalAt(p, 1), PresentAt(p, 1));
    AlignedAppend(p, OptionalAt(p, 0) + OptionalAt(p, 1), PresentAt(p, 0) + PresentAt(p, 1),
                  OptionalAt(p, 2), PresentAt(p, 2));
    AlignedAppend(p, OptionalAt(p, 0) + OptionalAt(p, 1) + OptionalAt(p, 2),
                  PresentAt(p, 0) + PresentAt(p, 1) + PresentAt(p, 2), OptionalAt(p, 3), PresentAt(p, 3));
  }

  /** A product yields its general document first, then exactly one
      document per optional field it has, in the fixed field order, each
      tagged with the field's kind and the product's id. */
  lemma ProductDocumentsShape(p: Product)
    ensures var documents := ProductDocuments(p);
      && |documents| == 1 + |PresentFields(p)|
      && documents[0] == GeneralDocument(p)
      && forall i :: 1 <= i < |documents| ==>
           documents[i] == OptionalDocument(p, PresentFields(p)[i - 1])
           && documents[i].metadata == map["type" := OptionalKinds[PresentFields(p)[i - 1]], "product_id" := p.id]
  {
    OptionalDocumentsAligned(p);
  }

  /** A field is among the present ones exactly when the product has it;
      they come in the order care, usage, benefits, sustainability, and
      there are as many as the product has optional fields. */
  lemma PresentFieldsExact(p: Product, field: nat)
    ensures field in PresentFields(p) <==> field < 4 && Has(p, field)
    ensures forall i, j :: 0 <= i < j < |PresentFields(p)| ==> PresentFields(p)[i] < PresentFields(p)[j]
    ensures |PresentFields(p)| == PresentCount(p)
  {
  }

  lemma {:induction false} ProductsDocumentsCount(products: seq<Product>)
    ensures |ProductsDocuments(products)| == ProductDocumentCount(products)
  {
    if products != [] {
      var last := products[|products| - 1];
      ProductsDocumentsCount(products[..|products| - 1]);
      OptionalDocumentsAligned(last);
      PresentFieldsExact(last, 0);
    }
  }

  /** The number of documents: for each product one plus its present
      optional fields, and one per FAQ. */
  lemma DocumentCount(products: seq<Product>, faqs: seq<Faq>)
    ensures |Documents(products, faqs)| == ProductDocumentCount(products) + |faqs|
  {
    ProductsDocumentsCount(products);
  }

  /** Building from two lists of products one after the other gives the
      documents of the first list, then those of the second. */
  lemma ProductsDocumentsAppend(front: seq<Product>, back: seq<Product>)
    ensures ProductsDocuments(front + back) == ProductsDocuments(front) + ProductsDocuments(back)
  {
    FlattenAppend(front, back, ProductDocuments);
  }

  /** A document whose type tag is something other than "faq". */
  predicate NotFaq(d: Document) {
    "type" in d.metadata && d.metadata["type"] != "faq"
  }

  lemma ProductDocumentTagged(p: Product)
    ensures forall j :: 0 <= j < |ProductDocuments(p)| ==> NotFaq(ProductDocuments(p)[j])
  {
    OptionalDocumentsAligned(p);
  }

  /** Every product document is tagged with a type other than "faq". */
  lemma ProductDocumentsTagged(products: seq<Product>)
    ensures forall k :: 0 <= k < |ProductsDocuments(products)| ==> NotFaq(ProductsDocuments(products)[k])
  {
    forall i | 0 <= i < |products|
      ensures forall j :: 0 <= j < |ProductDocuments(products[i])| ==> NotFaq(ProductDocuments(products[i])[j])
    {
      ProductDocumentTagged(products[i]);
    }
    FlattenAll(products, ProductDocuments, NotFaq);
  }

  /** All product documents precede all FAQ documents: every document before
      position `|ProductsDocuments(products)|` has a type other than "faq",
      and the documents from there on are the FAQs' documents, in input
      order, whose metadata is exactly `{"type": "faq"}`. */
  lemma ProductsBeforeFaqs(products: seq<Product>, faqs: seq<Faq>)
    ensures var documents := Documents(products, faqs);
      var split := |ProductsDocuments(products)|;
      && (forall i :: 0 <= i < split ==> NotFaq(documents[i]))
      && (forall i :: split <= i < |documents| ==>
            documents[i] == FaqDocument(faqs[i - split]) && documents[i].metadata == map["type" := "faq"])
  {
    ProductsFirst(products, faqs);
    FaqsLast(products, faqs);
  }

  lemma ProductsFirst(products: seq<Product>, faqs: seq<Faq>)
    ensures forall i :: 0 <= i < |ProductsDocuments(products)| ==> NotFaq(Documents(products, faqs)[i])
  {
    ProductDocumentsTagged(products);
  }

  lemma FaqsLast(products: seq<Product>, faqs: seq<Faq>)
    ensures var split := |ProductsDocuments(products)|;
      forall i :: split <= i < |Documents(products, faqs)| ==>
        Documents(products, faqs)[i] == FaqDocument(faqs[i - split])
  {
    var front, back := ProductsDocuments(products), FaqsDocuments(faqs);
    forall i | |front| <= i < |front| + |back|
      ensures (front + back)[i] == FaqDocument(faqs[i - |front|])
    {
      assert (front + back)[i] == back[i - |front|];
    }
  }

  /** `create_documents_from_data`: the loops over the products and the FAQs,
      appending to one list. */
  method CreateDocuments(products: seq<Product>, faqs: seq<Faq>) returns (documents: seq<Document>)
    ensures documents == Documents(products, faqs)
  {
    documents := [];
    var i := 0;
    while i < |products|
      invariant 0 <= i <= |products|
      invariant documents == ProductsDocuments(products[..i])
    {
      ghost var before := documents;
      documents := AppendProductDocuments(documents, products[i]);
      FlattenStep(products, i, before, documents, ProductDocuments);
      i := i + 1;
      assert documents == ProductsDocuments(products[..i]);
    }
    assert products[..i] == products;
    var j := 0;
    while j < |faqs|
      invariant 0 <= j <= |faqs|
      invariant documents == ProductsDocuments(products) + FaqsDocuments(faqs[..j])
    {
      var faq := faqs[j];
      documents := documents + [Document("Q: " + faq.question + "\nA: " + faq.answer, map["type" := "faq"])];
      FaqsDocumentsStep(faqs, j);
      j := j + 1;
    }
    assert faqs[..j] == faqs;
  }

  /** The body of the product loop: appends the general document, then one
      document per optional field the product has, in the fixed order. */
  method AppendProductDocuments(before: seq<Document>, product: Product) returns (documents: seq<Document>)
    ensures documents == before + ProductDocuments(product)
  {
    documents := before;
    documents := documents + [Document(
      "Product Name: " + product.name + "\nCategory: " + product.category + "\nDescription: "
        + product.description + "\nPrice: $" + product.price,
      map["type" := "product", "id" := product.id, "category" := product.category])];
    if product.careInstructions.Some? {
      documents := documents + [Document(
        "Care Instructions for " + product.name + ":\n" + product.careInstructions.value,
        map["type" := "care_instructions", "product_id" := product.id])];
    }
    assert documents == before + [GeneralDocument(product)] + OptionalAt(product, 0);
    if product.usageInstructions.Some? {
      documents := documents + [Document(
        "Usage Instructions for " + product.name + ":\n" + product.usageInstructions.value,
        map["type" := "usage_instructions", "product_id" := product.id])];
    }
    assert documents == before + [GeneralDocument(product)] + OptionalAt(product, 0) + OptionalAt(product, 1);
    if product.benefits.Some? {
      var benefitsText := Join(", ", product.benefits.value);
      documents := documents + [Document(
        "Benefits of " + product.name + ":\n" + benefitsText,
        map["type" := "benefits", "product_id" := product.id])];
    }
    assert documents == before + [GeneralDocument(product)] + OptionalAt(product, 0) + OptionalAt(product, 1)
                        + OptionalAt(product, 2);
    if product.sustainability.Some? {
      documents := documents + [Document(
        "Sustainability information for " + product.name + ":\n" + product.sustainability.value,
        map["type" := "sustainability", "product_id" := product.id])];
    }
    ProductPieces(product, before, documents);
  }

  /** Appending a product's general document and then each optional
      document it has appends that product's documents. */
  lemma ProductPieces(p: Product, before: seq<Document>, after: seq<Document>)
    requires after == before + [GeneralDocument(p)] + OptionalAt(p, 0) + OptionalAt(p, 1) + OptionalAt(p, 2) + OptionalAt(p, 3)
    ensures after == before + ProductDocuments(p)
  {
    AppendFive(before, [GeneralDocument(p)], OptionalAt(p, 0), OptionalAt(p, 1), OptionalAt(p, 2), OptionalAt(p, 3));
  }

  lemma FaqsDocumentsStep(faqs: seq<Faq>, j: nat)
    requires j < |faqs|
    ensures FaqsDocuments(faqs[..j + 1]) == FaqsDocuments(faqs[..j]) + [FaqDocument(faqs[j])]
  {
    assert FaqsDocuments(faqs[..j + 1])[j] == FaqDocument(faqs[j]);
  }

  /** `[doc["content"] for doc in documents]`. */
  function Texts(documents: seq<Document>): (texts: seq<string>)
    ensures |texts| == |documents|
    ensures forall i :: 0 <= i < |documents| ==> texts[i] == documents[i].content
  {
    seq(|documents|, i requires 0 <= i < |documents| => documents[i].content)
  }

  /** `[doc["metadata"] for doc in documents]`. */
  function Metadatas(documents: seq<Document>): (metadatas: seq<Metadata>)
    ensures |metadatas| == |documents|
    ensures forall i :: 0 <= i < |documents| ==> metadatas[i] == documents[i].metadata
  {
    seq(|documents|, i requires 0 <= i < |documents| => documents[i].metadata)
  }

  /** Pairs texts with metadata position by position. */
  function Zip(texts: seq<string>, metadatas: seq<Metadata>): (documents: seq<Document>)
    requires |texts| == |metadatas|
    ensures |documents| == |texts|
    ensures forall i :: 0 <= i < |texts| ==> documents[i] == Document(texts[i], metadatas[i])
  {
    seq(|texts|, i requires 0 <= i < |texts| => Document(texts[i], metadatas[i]))
  }

  /** The two lists handed to the vector store are aligned: zipping them
      back gives exactly the documents, and splitting zipped lists gives
      the lists back. */
  lemma SplitAligned(documents: seq<Document>, texts: seq<string>, metadatas: seq<Metadata>)
    ensures |Texts(documents)| == |Metadatas(documents)| == |documents|
    ensures Zip(Texts(documents), Metadatas(documents)) == documents
    ensures |texts| == |metadatas| ==> Texts(Zip(texts, metadatas)) == texts && Metadatas(Zip(texts, metadatas)) == metadatas
  {
  }
}
