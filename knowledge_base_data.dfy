/** The catalogue the knowledge base is generated from: five products and
    nine frequently asked questions. The short fields (ids, names,
    categories, prices, benefits, questions) are written into `Catalogue` and
    `FaqCatalogue`; the long prose (descriptions, instructions,
    sustainability notes, answers) is their argument, and `BuiltInProse`
    holds it exactly as the generator writes it, including the line breaks
    and indentation inside its triple-quoted strings. The prices are the text
    Python prints for them. How many documents the catalogue gives does not
    depend on the prose, and `BuiltInDocumentCount` proves it for every
    prose. */
module KnowledgeBaseData {
  import opened Support
  import opened KnowledgeBase

  /** The long texts of one product: its description, its care or usage
      instructions, and its sustainability note. */
  datatype ProductProse = ProductProse(description: string, instructions: string, sustainability: string)

  /** The answers to the nine questions. */
  datatype Answers = Answers(
    watering: string,
    pets: string,
    drops: string,
    returnPolicy: string,
    repotting: string,
    shipping: string,
    sustainability: string,
    yellowLeaves: string,
    consultations: string)

  datatype Prose = Prose(
    palm: ProductProse,
    succulents: ProductProse,
    fern: ProductProse,
    soil: ProductProse,
    drops: ProductProse,
    answers: Answers)

  /** `generate_product_data`: three plants with care instructions and two
      plant-care products with usage instructions; every product has
      benefits and a sustainability note. */
  function Catalogue(prose: Prose): seq<Product> {
    [
      Product(
        id := "vm-plant-001",
        name := "VerdeMuse Harmony Palm",
        category := "Indoor Plants",
        description := prose.palm.description,
        price := "49.99",
        careInstructions := Some(prose.palm.instructions),
        usageInstructions := None,
        benefits := Some(["Air purifying", "Low maintenance", "Pet friendly", "Stress reducing"]),
        sustainability := Some(prose.palm.sustainability)),
      Product(
        id := "vm-plant-002",
        name := "VerdeMuse Serenity Succulent Collection",
        category := "Succulents",
        description := prose.succulents.description,
        price := "34.99",
        careInstructions := Some(prose.succulents.instructions),
        usageInstructions := None,
        benefits := Some(["Drought resistant", "Very low maintenance", "Air purifying", "Improves focus"]),
        sustainability := Some(prose.succulents.sustainability)),
      Product(
        id := "vm-plant-003",
        name := "VerdeMuse Tranquility Fern",
        category := "Indoor Plants",
        description := prose.fern.description,
        price := "39.99",
        careInstructions := Some(prose.fern.instructions),
        usageInstructions := None,
        benefits := Some(["Air humidifying", "Air purifying", "Stress reducing", "Improves bathroom air quality"]),
        sustainability := Some(prose.fern.sustainability)),
      Product(
        id := "vm-soil-001",
        name := "VerdeMuse Vital Soil Mix",
        category := "Plant Care",
        description := prose.soil.description,
        price := "19.99",
        careInstructions := None,
        usageInstructions := Some(prose.soil.instructions),
        benefits := Some(["Improves drainage", "Promotes healthy roots", "Contains natural nutrients", "Sustainable ingredients"]),
        sustainability := Some(prose.soil.sustainability)),
      Product(
        id := "vm-fert-001",
        name := "VerdeMuse Plant Vitality Drops",
        category := "Plant Care",
        description := prose.drops.description,
        price := "24.99",
        careInstructions := None,
        usageInstructions := Some(prose.drops.instructions),
        benefits := Some(["Promotes growth", "Enhances leaf color", "Supports root health", "Long-lasting"]),
        sustainability := Some(prose.drops.sustainability))
    ]
  }

  /** `generate_faq_data`. */
  function FaqCatalogue(answers: Answers): seq<Faq> {
    [
      Faq("How often should I water my VerdeMuse plant?", answers.watering),
      Faq("Are VerdeMuse plants pet-friendly?", answers.pets),
      Faq("How do I use the VerdeMuse Plant Vitality Drops?", answers.drops),
      Faq("What is your return policy?", answers.returnPolicy),
      Faq("How do I repot my VerdeMuse plant?", answers.repotting),
      Faq("Where do you ship VerdeMuse products?", answers.shipping),
      Faq("How sustainable are VerdeMuse products?", answers.sustainability),
      Faq("Why are the leaves on my plant turning yellow?", answers.yellowLeaves),
      Faq("Do you offer plant care consultations?", answers.consultations)
    ]
  }

  const BuiltInProse: Prose := Prose(
    ProductProse(
      "The VerdeMuse Harmony Palm is a lush, air-purifying plant that thrives in indirect \n            sunlight. Perfect for improving indoor air quality while adding a touch of natural beauty to any space. \n            Its elegant fronds create a peaceful atmosphere and it's known for being low-maintenance.",
      "Water once a week, allowing soil to dry slightly between waterings. \n            Place in bright, indirect sunlight. Keep away from cold drafts and avoid temperature below 55\U{B0}F (13\U{B0}C).\n            Mist occasionally to maintain humidity. Fertilize monthly during growing season with organic plant food.",
      "Grown in our carbon-neutral greenhouse using rainwater collection systems."),
    ProductProse(
      "The VerdeMuse Serenity Succulent Collection features a curated selection of drought-resistant \n            succulents in biodegradable pots. These charming plants add a modern touch to any space while requiring \n            minimal care. Each collection contains 3 unique varieties chosen for their complementary aesthetics.",
      "Water sparingly, only when soil is completely dry (approximately every 2-3 weeks). \n            Place in bright light with some direct sun. Use well-draining soil specifically formulated for cacti and succulents. \n            Protect from frost. Fertilize lightly during spring and summer months.",
      "Packaged in compostable materials with seeds embedded in the packaging."),
    ProductProse(
      "The VerdeMuse Tranquility Fern brings the lushness of a forest into your home. \n            With its delicate, feathery fronds and rich green color, this fern creates a sense of calm and natural abundance. \n            It thrives in humid environments, making it perfect for bathrooms and kitchens.",
      "Keep soil consistently moist but not soggy. Place in medium to bright indirect light, \n            avoiding direct sunlight which can scorch the leaves. Maintain high humidity by misting regularly or using a pebble tray. \n            Feed with diluted organic fertilizer monthly during growing season. Trim any brown fronds at the base.",
      "Grown using sustainable farming practices that conserve water and protect local ecosystems."),
    ProductProse(
      "VerdeMuse Vital Soil Mix is a premium, organic potting soil designed to provide optimal \n            nutrition and drainage for all your houseplants. This proprietary blend contains coconut coir, perlite, \n            worm castings, and slow-release organic nutrients to support healthy root development and plant growth.",
      "For repotting: Remove plant from current pot, gently loosen root ball, and place in new pot \n            with fresh Vital Soil Mix. For existing plants: Replace the top 2 inches of soil with fresh mix every 6 months \n            to replenish nutrients. Water thoroughly after applying.",
      "Made from 100% sustainable and renewable resources. Packaged in compostable bags."),
    ProductProse(
      "VerdeMuse Plant Vitality Drops is a concentrated liquid fertilizer that provides essential \n            nutrients for flourishing houseplants. Our balanced formula supports healthy foliage, vibrant flowers, and \n            strong roots. Made with natural ingredients and beneficial microorganisms.",
      "Add 5 drops per cup of water when watering your plants. For small plants, use once a month. \n            For larger plants and fast-growing varieties, use every two weeks. Avoid application to very dry soil; \n            water plants first, then apply diluted product.",
      "Produced using solar energy. Bottles made from 100% post-consumer recycled materials."),
    Answers(
      "Watering frequency depends on the specific plant variety, but most VerdeMuse plants should be \n            watered when the top 1-2 inches of soil feel dry to the touch. The Harmony Palm typically needs watering \n            once a week, while the Serenity Succulents only need water every 2-3 weeks. The Tranquility Fern prefers \n            consistently moist soil. Always check the specific care instructions included with your plant or refer to \n            the product description on our website.",
      "Many of our plants are pet-friendly, but not all. The VerdeMuse Harmony Palm is safe for pets, \n            as are most of our succulent collections. However, some plants may be toxic if ingested by cats, dogs, or other pets. \n            Each product description clearly indicates whether the plant is pet-friendly. If you have pets, we recommend \n            checking this information before purchasing or keeping plants out of your pets' reach.",
      "To use the VerdeMuse Plant Vitality Drops, add 5 drops per cup of water when watering your plants. \n            For small plants, apply once a month. For larger plants and fast-growing varieties, apply every two weeks. \n            It's best to avoid applying the fertilizer to very dry soil, so water your plants first, then apply the \n            diluted product. The concentrated formula provides essential nutrients that support healthy foliage, \n            vibrant flowers, and strong roots.",
      "VerdeMuse offers a 30-day satisfaction guarantee on all our plants. If your plant arrives damaged \n            or dies within 30 days despite following the care instructions, we'll replace it or issue a refund. To initiate \n            a return, contact our customer service team with your order number and photos of the plant. Please note that \n            plants showing signs of neglect or improper care are not eligible for returns. For plant care products, \n            we accept unused, sealed returns within 30 days of purchase.",
      "To repot your VerdeMuse plant: 1) Choose a pot 1-2 inches larger in diameter than the current one, \n            with drainage holes. 2) Add a layer of VerdeMuse Vital Soil Mix at the bottom. 3) Carefully remove the plant \n            from its current pot, gently loosening the roots. 4) Place in the new pot and fill around the sides with fresh soil. \n            5) Water thoroughly and place in an appropriate light environment. Most plants benefit from repotting every \n            1-2 years in spring or early summer.",
      "VerdeMuse currently ships to all 50 U.S. states and select Canadian provinces. We use specialized \n            plant-safe packaging to ensure your plants arrive in perfect condition. Shipping times typically range from \n            3-7 business days, depending on your location. During extreme weather conditions, we may temporarily hold \n            shipments to certain regions to protect the plants. International shipping outside North America is not \n            available at this time, but we're working on expanding our shipping capabilities.",
      "Sustainability is at the core of VerdeMuse's mission. Our plants are grown in carbon-neutral \n            greenhouses using rainwater collection systems and renewable energy. We use biodegradable or recyclable \n            packaging materials, many with embedded seeds that can be planted. Our soil products are made from renewable \n            resources and packaged in compostable bags. The Plant Vitality Drops are produced using solar energy, and \n            the bottles are made from 100% post-consumer recycled materials. We also partner with reforestation projects, \n            planting a tree for every 10 products sold.",
      "Yellow leaves can be caused by several factors: 1) Overwatering: This is the most common cause. \n            Ensure proper drainage and allow soil to dry appropriately between waterings. 2) Underwatering: Consistently \n            dry soil can stress the plant. 3) Lighting issues: Too much or too little light can cause yellowing. \n            4) Nutrient deficiencies: Consider applying VerdeMuse Plant Vitality Drops. 5) Normal aging: Some yellowing \n            of older leaves is natural. If yellowing persists, check the specific care requirements for your plant variety \n            or contact our plant care specialists for personalized advice.",
      "Yes, VerdeMuse offers complimentary 15-minute virtual plant care consultations for customers. \n            During these sessions, our plant specialists can help diagnose issues, provide care recommendations, and \n            answer specific questions about your VerdeMuse plants. To schedule a consultation, log into your account \n            on our website and select \"Book Plant Care Consultation\" from the customer service menu. Premium customers \n            also have access to extended consultation sessions and quarterly plant health check-ups."))

  const Products: seq<Product> := Catalogue(BuiltInProse)
  const Faqs: seq<Faq> := FaqCatalogue(BuiltInProse.answers)

  /** The catalogue gives 29 documents, whatever its prose: 20 from the
      products (a general document and three optional ones each) and 9 from
      the FAQs. */
  lemma BuiltInDocumentCount(prose: Prose)
    ensures |ProductsDocuments(Catalogue(prose))| == 20
    ensures |Documents(Catalogue(prose), FaqCatalogue(prose.answers))| == 29
  {
    var products := Catalogue(prose);
    assert products[..1][..0] == [];
    assert products[..2][..1] == products[..1];
    assert products[..3][..2] == products[..2];
    assert products[..4][..3] == products[..3];
    assert products[..5][..4] == products[..4];
    assert products[..5] == products;
    assert ProductDocumentCount(products[..1]) == 4;
    assert ProductDocumentCount(products[..2]) == 8;
    assert ProductDocumentCount(products[..3]) == 12;
    assert ProductDocumentCount(products[..4]) == 16;
    ProductsDocumentsCount(products);
    DocumentCount(products, FaqCatalogue(prose.answers));
  }
}
