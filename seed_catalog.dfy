/**
 * The literal records `seedDatabase` inserts (convex/seedData.ts), module by module, in
 * the order they are listed. Sales and liabilities are given as the inputs of their
 * create mutations, which complete them; the other modules are stored as listed.
 */
module SeedCatalog {
  import opened Wrappers
  import opened Records

  /** The arguments of `createSale`: the profit fields are derived by the mutation. */
  datatype SaleInput = SaleInput(date: string, description: string, cost: int, sellingPrice: int, expenses: int)

  /** The arguments of `createLiability`: the outstanding balance is set by the mutation. */
  datatype LiabilityInput = LiabilityInput(
    lenderParty: string, liabilityType: string, startDate: string, dueDate: string, originalAmount: int,
    description: string)

  const SalesCatalog: seq<SaleInput> := [
    SaleInput("2025-01-15", "Enterprise Software License", 2500000, 4500000, 350000),
    SaleInput("2025-01-20", "Mobile App Development", 1800000, 3500000, 280000),
    SaleInput("2025-02-05", "E-commerce Platform", 3200000, 6500000, 520000),
    SaleInput("2025-02-12", "Digital Marketing Campaign", 850000, 1500000, 120000),
    SaleInput("2025-02-18", "Cloud Infrastructure Setup", 1200000, 2200000, 180000),
    SaleInput("2025-06-10", "AI Chatbot System", 1500000, 2800000, 220000),
    SaleInput("2025-06-15", "Data Analytics Platform", 2200000, 4200000, 350000),
    SaleInput("2025-06-20", "Blockchain Development", 3500000, 7500000, 600000),
    SaleInput("2025-08-05", "VR Training Software", 2800000, 5500000, 450000),
    SaleInput("2025-08-12", "API Integration Service", 950000, 1800000, 150000),
    SaleInput("2025-08-18", "DevOps Automation Setup", 1400000, 2600000, 200000),
    SaleInput("2025-10-08", "Cybersecurity Audit", 800000, 1500000, 100000),
    SaleInput("2025-10-14", "Performance Optimization", 1200000, 2300000, 180000),
    SaleInput("2025-10-20", "Legacy System Migration", 2500000, 4800000, 400000)]

  const ExpensesCatalog: seq<Expense> := [
    Expense("2025-01-08", "Office Equipment", "MacBook Pro", "Apple Store", 280000, "paid"),
    Expense("2025-01-12", "Software Licenses", "Adobe Creative Suite", "Adobe Inc", 120000, "paid"),
    Expense("2025-01-18", "Marketing", "Google Ads Campaign", "Google LLC", 350000, "unpaid"),
    Expense("2025-02-02", "Office Rent", "Monthly office rent", "Property Management Co", 450000, "paid"),
    Expense("2025-06-05", "Office Equipment", "Gaming PC Setup", "TechPro Solutions", 420000, "paid"),
    Expense("2025-06-12", "Software Licenses", "Microsoft Office 365", "Microsoft Corp", 95000, "paid"),
    Expense("2025-06-18", "Marketing", "Social Media Campaign", "Digital Agency Pro", 280000, "unpaid"),
    Expense("2025-08-03", "Office Equipment", "Wireless Headsets", "AudioTech Ltd", 155000, "paid"),
    Expense("2025-08-10", "Software Licenses", "VS Code Pro Licenses", "Microsoft Corp", 75000, "paid"),
    Expense("2025-08-15", "Marketing", "SEO Optimization", "SEO Masters Inc", 320000, "unpaid"),
    Expense("2025-10-02", "Office Equipment", "Standing Desk", "Ergonomic Solutions", 89000, "paid"),
    Expense("2025-10-08", "Software Licenses", "Figma Teams", "Figma Inc", 65000, "paid"),
    Expense("2025-10-20", "Marketing", "LinkedIn Ads Campaign", "LinkedIn Business", 400000, "unpaid")]

  const LiabilitiesCatalog: seq<LiabilityInput> := [
    LiabilityInput("First National Bank", "Business Loan", "2025-01-15", "2026-01-15", 5000000, "Business expansion loan"),
    LiabilityInput("Equipment Finance Corp", "Equipment Loan", "2025-02-20", "2026-02-20", 2500000, "Equipment financing"),
    LiabilityInput("Tech Investment Bank", "Software License Loan", "2025-06-10", "2026-06-10", 3200000, "AI development funding"),
    LiabilityInput("Digital Solutions Finance", "Office Renovation Loan", "2025-08-05", "2026-08-05", 1500000, "Workspace modernization"),
    LiabilityInput("Innovation Capital", "R&D Loan", "2025-10-15", "2026-10-15", 2800000, "Research and development")]

  const SalariesCatalog: seq<Salary> := [
    Salary("John Smith", "Senior Developer", "2025-01", 885000, "paid", Some("2025-01-31")),
    Salary("Sarah Johnson", "UI/UX Designer", "2025-01", 665000, "paid", Some("2025-01-31")),
    Salary("Ahmed Al-Rashid", "Project Manager", "2025-02", 802000, "pending", Some("2025-02-28")),
    Salary("Maria Rodriguez", "AI Engineer", "2025-06", 950000, "paid", Some("2025-06-30")),
    Salary("David Chen", "DevOps Engineer", "2025-08", 780000, "pending", Some("2025-08-31")),
    Salary("Lisa Wang", "Data Scientist", "2025-10", 920000, "paid", Some("2025-10-31"))]

  const BankPdcCatalog: seq<BankPdc> := [
    BankPdc("Emirates NBD", "CHQ001234", "PDC-001", "Tech Solutions LLC", "Software development", 1500000, "pending", "2025-03-15"),
    BankPdc("First Abu Dhabi Bank", "CHQ001235", "PDC-002", "Office Furniture Co", "Office furniture", 850000, "pending", "2025-04-20"),
    BankPdc("Commercial Bank UAE", "CHQ001236", "PDC-003", "AI Tech Partners", "AI model development", 2200000, "pending", "2025-06-12"),
    BankPdc("Standard Chartered", "CHQ001237", "PDC-004", "Cloud Infrastructure Ltd", "Server upgrade", 1800000, "cleared", "2025-08-08"),
    BankPdc("HSBC Middle East", "CHQ001238", "PDC-005", "Security Solutions Pro", "Network security", 950000, "pending", "2025-10-10")]

  const FutureNeedsCatalog: seq<FutureNeed> := [
    FutureNeed("2025-03", "New Server Hardware", 2, 550000, "one-time"),
    FutureNeed("2025-04", "Office Expansion", 5, 120000, "one-time"),
    FutureNeed("2025-03", "Monthly Cloud Hosting", 1, 85000, "recurring"),
    FutureNeed("2025-06", "AI Training GPUs", 4, 1200000, "one-time"),
    FutureNeed("2025-08", "Office Renovation Phase 2", 1, 2500000, "one-time"),
    FutureNeed("2025-10", "Advanced Analytics Tools", 1, 150000, "recurring")]

  const BusinessInHandCatalog: seq<BusinessInHandRecord> := [
    BusinessInHandRecord("po_in_hand", "Enterprise CRM System", 8500000, "2025-04-15", "confirmed", None),
    BusinessInHandRecord("pending_invoice", "Website Redesign", 1200000, "2025-03-10", "pending", None),
    BusinessInHandRecord("expected_revenue", "Mobile App Contract", 2500000, "2025-05-20", "confirmed", None),
    BusinessInHandRecord("po_in_hand", "AI Implementation Project", 5200000, "2025-06-25", "confirmed", None),
    BusinessInHandRecord("pending_invoice", "Blockchain Integration", 3800000, "2025-08-30", "pending", None),
    BusinessInHandRecord("expected_revenue", "Cybersecurity Consulting", 1800000, "2025-10-15", "confirmed", None)]

  /** The seven lists, one per module. */
  datatype Catalog = Catalog(
    sales: seq<SaleInput>, expenses: seq<Expense>, liabilities: seq<LiabilityInput>, salaries: seq<Salary>,
    bankPdc: seq<BankPdc>, futureNeeds: seq<FutureNeed>, businessInHand: seq<BusinessInHandRecord>)

  /** The catalogue `seedDatabase` inserts. */
  const Samples := Catalog(SalesCatalog, ExpensesCatalog, LiabilitiesCatalog, SalariesCatalog, BankPdcCatalog,
                           FutureNeedsCatalog, BusinessInHandCatalog)
}
