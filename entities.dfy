/** The records the screens work on. Dates are millisecond timestamps, amounts are whole
    rupees, and optional text fields whose only use is a truthiness check use "" for
    "not set". Statuses stay strings, because the screens compare them with literals and
    fall through to a default for any other value. */
module Entities {
  import opened Wrappers

  /** One service line stored on a job card. */
  datatype JobService = JobService(
    id: string,
    customServiceName: string,
    serviceDescription: string,
    serviceCost: Option<int>)

  datatype JobCard = JobCard(
    id: string,
    customerId: string,
    customerName: string,
    vehicleId: string,
    vehicleMake: string,
    vehicleModel: string,
    vehicleReg: string,
    status: string,
    paymentStatus: string,
    totalAmount: int,
    serviceNotes: string,
    dateOfService: int,
    updatedAt: int,
    assignedMechanicId: string,
    services: Option<seq<JobService>>)

  /** A service of the catalogue (predefined, custom, or one being edited). */
  datatype CatalogService = CatalogService(
    id: string,
    name: string,
    description: string,
    price: int,
    estimatedTime: string,
    category: string)

  datatype Customer = Customer(
    id: string,
    name: string,
    mobile: string,
    email: Option<string>,
    altContact: string,
    address: string,
    notes: string)

  datatype Vehicle = Vehicle(
    id: string,
    customerId: string,
    make: string,
    model: string,
    year: string,
    registrationNumber: string,
    engineNumber: string,
    chassisNumber: string,
    odometerReading: string,
    fuelType: string,
    notes: string)

  datatype InventoryItem = InventoryItem(
    id: string,
    partName: string,
    partNumber: string,
    category: string,
    stockQuantity: int,
    lowStockThreshold: int,
    purchasePrice: int,
    sellingPrice: int,
    description: string,
    location: string)

  datatype Mechanic = Mechanic(
    id: string,
    name: string,
    activeJobCards: int,
    expertise: Option<seq<string>>)

  /** The report payload the WhatsApp dialog formats: the shape the report generator builds. */
  datatype PendingEntry = PendingEntry(
    id: string, customerName: string, vehicleReg: string, status: string, mechanicName: string)

  datatype CompletedEntry = CompletedEntry(
    id: string, customerName: string, vehicleReg: string, totalAmount: int)

  datatype DueEntry = DueEntry(id: string, customerName: string, amountDue: int)

  datatype MonthlySummary = MonthlySummary(totalJobs: int, totalRevenue: int, pendingPayments: int)

  datatype ReportData = ReportData(
    pendingJobs: seq<PendingEntry>,
    completedToday: seq<CompletedEntry>,
    completedYesterday: seq<CompletedEntry>,
    monthlySummary: MonthlySummary,
    pendingPayments: seq<DueEntry>)

  // Key selectors, for the by-id collection operations.
  function JobCardId(j: JobCard): string { j.id }
  function JobServiceId(s: JobService): string { s.id }
  function CatalogServiceId(s: CatalogService): string { s.id }
  function CustomerId(c: Customer): string { c.id }
  function VehicleId(v: Vehicle): string { v.id }
  function InventoryItemId(i: InventoryItem): string { i.id }
  function MechanicId(m: Mechanic): string { m.id }
}
