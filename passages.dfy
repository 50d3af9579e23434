/** The fixed wording of the generated documents (lib/document-generator.ts).
    Every heading, sentence and template string the generator emits is one
    `Passage` (list markers such as "a) " and row numbers stay plain text); a
    passage's wording is a list of segments between which the data values of
    a template literal are inserted, in order. */
module Passages {

  datatype Passage =
      RequestForProposal
    | For
    | MonthYear
    | RfpNo
    | CorporationName
    | AddressLine
    | AhmedabadIndia
    | Ahmedabad
    | MonthCommaYear
    | SupplyTitle
    | AnnualMaintenanceOf
    | AddressLineShort
    | VastrapurAhmedabad
    | TableOfContentsHeading
    | DisclaimerHeading
    | DisclaimerIssue
    | DisclaimerNotAgreement
    | DisclaimerExamination
    | DefinitionsHeading
    | DefinitionsIntro
    | DefGmdc
    | DefBidder
    | DefBid
    | DefBidDueDate
    | DefServiceProvider
    | DefConsortium
    | DefAgreement
    | DefCorruptPractice
    | DefConflictOfInterest
    | DefFees
    | DefCompositeScore
    | DefContractPrice
    | DefPreQualification
    | DefEvaluationProcess
    | DefEmd
    | DefFinancialScore
    | DefLetterOfAward
    | DefParties
    | DefPreferredBidder
    | DefSuccessfulBidder
    | DefTermsOfReference
    | DefTechnicalScore
    | DefThirdParty
    | DefinitionsClosing
    | BackgroundHeading
    | BackgroundCorporation
    | BackgroundMining
    | BackgroundTransformation
    | BackgroundEngagement
    | EstimateLead
    | EstimateSuffix
    | SectionIIHeading
    | BudgetLabel
    | SpecialRequirementsLabel
    | ScopeOfWorkHeading
    | DetailsPlaceholder
    | DeliverablesHeading
    | DeliverablesIntro
    | DeliverablesColumn
    | TimelineColumn
    | ToBeDefined
    | TMonthsFormat
    | T1MonthsFormat
    | TDefinition
    | ExtensionNotice
    | T1Definition
    | SectionIIIHeading
    | IntroductionHeading
    | BiddingProcessHeading
    | BiddingProcessSystem
    | BiddingProcessConformity
    | BiddingProcessTechnical
    | BiddingProcessPrice
    | DueDiligenceHeading
    | DueDiligence
    | AcknowledgementHeading
    | AcknowledgementIntro
    | AckExamination
    | AckInformation
    | AckRisk
    | AckConflict
    | AckUndertakings
    | AcknowledgementLiability
    | CostOfBiddingHeading
    | CostOfBidding
    | RfpFeeHeading
    | RfpFee
    | RfpFeeDemandDraft
    | RfpFeeTransfer
    | BankName
    | AccountNumber
    | IfsCode
    | SwiftCode
    | ElectronicPayment
    | ScheduleHeading
    | ScheduleIntro
    | SrNoColumn
    | EventColumn
    | DateColumn
    | DateFormatNote
    | EventRfpAvailable
    | RfpAvailable
    | EventQueries
    | Queries
    | IssuingAuthority
    | Email
    | OfficeAddress
    | LandLines
    | BoardLines
    | EventPreBid
    | PreBidMeeting
    | PreBidVideoLink
    | EventPriceBid
    | PriceBidOnline
    | TechnicalBidOffline
    | EventTechnicalBid
    | TechnicalBidSubmission
    | EventTechnicalOpening
    | TechnicalOpening
    | EventPriceOpening
    | PriceOpening
    | EventSigning
    | Signing
    | ScheduleChanges
    | GeneralHeading
    | BidValidityHeading
    | BidValidityPeriod
    | BidValidityExtension
    | NumberOfBidsHeading
    | NumberOfBids
    | GoverningLawHeading
    | GoverningLaw
    | RightToRejectHeading
    | RightToRejectAnnulment
    | RightToRejectRelease
    | RightToRejectGrounds
    | RejectCriteria
    | RejectMisrepresentation
    | RejectCorruptPractice
    | RejectMissingInformation
    | RejectConditionalBid
    | RejectionAfterOpening
    | EmdHeading
    | EmdFurnish
    | EmdDemandDraft
    | EmdBankGuarantee

  /** The literal pieces of a passage: the text before the first inserted
      value, between consecutive values, and after the last one. */
  function Segments(p: Passage): seq<string> {
    match p
    case RequestForProposal => ["Request for Proposal"]
    case For => ["for"]
    case MonthYear => ["", " ", ""]
    case RfpNo => ["RFP No: ", ""]
    case CorporationName => ["Gujarat Mineral Development Corporation Limited"]
    case AddressLine => ["Khanij Bhavan, 132-ft Ring Road, Gujarat University Ground, Vastrapur,"]
    case AhmedabadIndia => ["Ahmedabad- 380052, India"]
    case Ahmedabad => ["Ahmedabad- 380052"]
    case MonthCommaYear => ["", ", ", ""]
    case SupplyTitle => ["RFP for Supply, Installation and Commissioning with"]
    case AnnualMaintenanceOf => ["Comprehensive Annual Maintenance of"]
    case AddressLineShort => ["Khanij Bhavan, 132-ft Ring Road, Gujarat University Ground,"]
    case VastrapurAhmedabad => ["Vastrapur, Ahmedabad- 380052"]
    case TableOfContentsHeading => ["TABLE OF CONTENTS"]
    case DisclaimerHeading => ["DISCLAIMER"]
    case DisclaimerIssue => ["This RFP is being issued by the Gujarat Mineral Development Corporation Ltd (GMDC) (hereunder called \"Authority\"/ \"GMDC\") to the Bidder interested in assisting GMDC in ", " (RFP name)."]
    case DisclaimerNotAgreement => ["It is hereby clarified that this RFP is not an agreement, and the purpose of this RFP is to provide the Bidder(s) with information to assist in the formulation of their Proposals/Bids. While the RFP has been prepared in good faith with due care and caution, GMDC does not accept any liability or responsibility for the accuracy, reasonableness, or completeness of the information, or for any errors, omissions or misstatements, negligent or otherwise, in the information provided, or those in any documents, implied or referred herein. It is suggested that each Bidder/Bidder should conduct its own investigations and analysis and should check the accuracy, reliability and completeness of the information in this RFP and where necessary obtain independent advice from appropriate sources."]
    case DisclaimerExamination => ["Bidder should carefully examine and analyze the RFP and bring to the notice of GMDC any error, omission or inaccuracies therein that are apparent and to carry out its own investigation with respect to all matters related to the captioned subject, seek professional advice on technical, financial, legal, regulatory and taxation matters and satisfy himself of consequences of entering into any agreement and / or arrangement relating to the captioned subject. GMDC and its employees make no representation or warranty, express or implied, and shall incur no liability under any law, statute, rules or regulations as to the accuracy, reliability or completeness of the information contained in the RFP or in any material on which this RFP is based or with respect to any written or verbal information made available to any Proposer or its representative(s)."]
    case DefinitionsHeading => ["DEFINITIONS"]
    case DefinitionsIntro => ["In this RFP, the following word (s), unless repugnant to the context or meaning thereof, shall have the meaning(s) assigned to them herein below:"]
    case DefGmdc => ["\"GMDC\"/Authority\" shall mean the Gujarat Mineral Development Corporation Limited who shall appoint the Service provider for the captioned work."]
    case DefBidder => ["\"Bidder\" shall mean any firm or body corporate registered in India which submits the bid including paying the RFP Fees and Bid Security/EMD as per the terms of this RFP within the stipulated time. It should be either Limited Liability Partnership firm registered under LLP act or a Company under the India Companies Act 1956/2013."]
    case DefBid => ["Bid/Proposal\" means the Bid submitted by the Bidder(s) in response to this RFP in accordance with the provisions hereof including Technical Bid and Price Bid along with all other documents forming part and in support thereof as specified in this RFP."]
    case DefBidDueDate => ["\"Bid Due Date\" means last date of Bid submission as set out in Clause 1.6 of SECTION III"]
    case DefServiceProvider => ["\"Service provider\" shall mean the successful Bidder who is selected by Authority/GMDC as per the process outlined in this RFP Document for assisting in preparing ", " for GMDC as per the Scope of Work."]
    case DefConsortium => ["\"Consortium\" shall mean the group of legally constituted entities, who have come together to participate in captioned work. A Consortium is not permitted to participate in this Project/Assignment as per the criteria specified in clause 5.1."]
    case DefAgreement => ["\"Agreement/Contract\" is the agreement to be entered into between 'Gujarat Mineral Development Corporation (GMDC)' and 'Service provider' comprising of all terms and conditions stated in this RFP."]
    case DefCorruptPractice => ["\"Corrupt Practice\" shall have the meaning ascribed thereto under clause 8 of SECTION III this RFP."]
    case DefConflictOfInterest => ["\"Conflict of Interest\" shall have a meaning specified in clause 9 of SECTION III."]
    case DefFees => ["\"Fees/Service Charges/Service Fees\" shall mean the charges payable by GMDC for the Services rendered by the Service provider."]
    case DefCompositeScore => ["\"Composite Score\" shall mean score obtained by Service provider as per the formula provided in clause 5.5."]
    case DefContractPrice => ["\"Contract Price\" shall mean the Service Fees as specified in Letter of Award issued by GMDC to the Service provider."]
    case DefPreQualification => ["\"Pre-Qualification Criteria\" means criteria specified in clause 5.1 of SECTION III"]
    case DefEvaluationProcess => ["\"Evaluation Process\" means steps of evaluation specified in clause 6 of SECTION III"]
    case DefEmd => ["\"EMD/ Bid Security\" means the Bid security/ earnest money deposit to be submitted by the Bidder as per clause 2.5 of SECTION III. All Bidders are exempted from the submission of EMD/ Bid Security."]
    case DefFinancialScore => ["Financial Score shall mean score obtained by the Bidder as per the formula provided in clause 5.4 of SECTION III."]
    case DefLetterOfAward => ["Letter of Award\" shall have the meaning ascribed thereto under clause 7.1 of RFP SECTION III."]
    case DefParties => ["\"Parties\" means the parties to the Agreement and \"Party\" means either of them, as the context may admit or require."]
    case DefPreferredBidder => ["\"Preferred Bidder \"shall have a meaning specified in clause 6.4 (ii) of RFP SECTION III."]
    case DefSuccessfulBidder => ["\"Successful Bidder\" means the Preferred Bidder selected in terms hereof and to whom GMDC shall issue the Letter of Award in accordance with the provisions hereof and who shall undertake the Terms of Reference as per the terms specified in RFP."]
    case DefTermsOfReference => ["\"Terms of Reference/Scope of Work\" means all activities as per the Terms of Reference or Scope of Work mentioned in Section II of this RFP which the Service provider is required to carry out as per Good Industry Practice."]
    case DefTechnicalScore => ["Technical Score shall mean score obtained by the Bidder as per the Technical Score system provided in clause 5.2 of RFP SECTION III."]
    case DefThirdParty => ["\"Third Party\" means any Person other than GMDC and the Service provider."]
    case DefinitionsClosing => ["Any other term(s), not defined herein above but defined elsewhere in this RFP shall have the meaning(s) ascribed to such term(s) therein and shall be deemed to have been included in this Section."]
    case BackgroundHeading => ["SECTION I: BACKGROUND"]
    case BackgroundCorporation => ["Gujarat Mineral Development Corporation Ltd (GMDC) is a leading Public Sector Mining and Minerals Company of Gujarat with operational experience of over 60 years. GMDC's product portfolio spans across mining, value added products and power. Its power portfolio includes clean energy sources such as solar and wind besides thermal power."]
    case BackgroundMining => ["GMDC's mining activities are spread across Gujarat in Kutch, Devbhoomi Dwarka, Panchmahal, Vadodara, Bhavnagar, Bharuch, Surat and Chhotaudepur districts of the State. It is currently mining minerals like Lignite with five operational lignite mines, Bauxite (11 operating mines), Fluorspar, Manganese, Ball Clay, Silica Sand, Bentonitic Clay and Limestone. GMDC also value adds to minerals through works such as Pyrite removal from Lignite, Beneficiation of Bauxite, Beneficiation of Low-Grade Manganese and Beneficiation of Fluorspar. The Company has set up a 250 MW lignite based Thermal Power Station at Nani Chher in Kutch as a forward integration, Wind power plant of 200.9 MW at Maliya, Jodiya, Godsar, Bhanvad, Bada, Verbala, Rojmal and Solar Power plant of 5 MW at Panandhro Project. GMDC's existing Metallic mineral portfolio includes Fluorspar, Manganese, Bauxite, and Multimetals in addition to other associated minerals like silica sand, Bentonite, Ball Clay and Limestone."]
    case BackgroundTransformation => ["GMDC has undertaken a strategic transformation exercise over the last few years with a view to achieve growth milestones, diversity its product portfolio, leverage existing assets, provide inputs to the industry and contribute to the growth of the state's economy. As part of its strategic transformation exercise, GMDC is already in the process of expanding its mining operations by setting up six new lignite-based projects in Kutch and South Gujarat. Further, GMDC through its metal division also intends to expand and develop metal mining portfolio by developing existing metal mining projects and exploring new opportunities in metal mining sector in India. A number of other projects are in the pipeline based on identified thrust areas. Leveraging its capabilities in lignite thus, one of the key strategic diversifications for GMDC is in the area of domestic coal mining, where it would like to access domestic coal mostly occurring in the eastern part of India. As part of this strategy, it has participated in auctions of commercial blocks conducted by the Ministry of Mines, Government of India. GMDC won the bids for Burapahar block, the Baitarani West coal block and more recently at Kudanali Lubri block, (all blocks in the state of Odisha in India)."]
    case BackgroundEngagement => ["In line with GMDC's strategic vision for growth and diversification, the Corporation seeks to engage a qualified Service Provider for ", ". This initiative aims to enhance GMDC's capabilities in the ", " department, ensuring sustainable growth and operational excellence. The duration of this assignment is expected to be ", " months from the date of contract signing, subject to satisfactory performance and deliverables as outlined in the scope of work."]
    case EstimateLead => ["The total estimated amount for this tender is Rs. "]
    case EstimateSuffix => ["/-"]
    case SectionIIHeading => ["SECTION II: TERMS OF REFERENCE / SCOPE OF WORK"]
    case BudgetLabel => ["Budget: "]
    case SpecialRequirementsLabel => ["Special Requirements: "]
    case ScopeOfWorkHeading => ["1. Scope of Work"]
    case DetailsPlaceholder => ["[Details to be provided in this section]"]
    case DeliverablesHeading => ["2. Deliverables"]
    case DeliverablesIntro => ["The deliverables of the Scope are specified below."]
    case DeliverablesColumn => ["Deliverables"]
    case TimelineColumn => ["Timeline"]
    case ToBeDefined => ["To be defined"]
    case TMonthsFormat => ["(T+ Months) format"]
    case T1MonthsFormat => ["(T1+ Months format)"]
    case TDefinition => ["\"T\" is defined as commencement date. The Commencement date shall be seven days from the date of signing of the Agreement or mutually agreed early date when the Service provider shall commence the work."]
    case ExtensionNotice => ["(i) In case GMDC decides to extend the Contract beyond ", " year then the it shall issue Notice to Proceed by providing time period of 7 days. In case of extension, the tentative deliverables and timeline as envisaged at this time are provided below."]
    case T1Definition => ["\"T1\" is defined as 15 days from the date of Notice to proceed to be issued by GMDC if contract period is extended as per the provision of this RFP."]
    case SectionIIIHeading => ["SECTION III: INSTRUCTIONS TO BIDDERS"]
    case IntroductionHeading => ["1. INTRODUCTION"]
    case BiddingProcessHeading => ["1.1. Bidding Process"]
    case BiddingProcessSystem => ["GMDC has adopted a single stage two packet bidding system separately for Technical Bid and Price Bid with evaluation as per Quality cum Cost Based System (QCBS) Method as detailed out in Request for Proposal for the ", " (the \"Bidding Process\"). Price Bid shall be submitted online while Technical Bid shall be submitted physically in hard copy prior to the time, date and address provided in clause 1.6. Complete Bid shall be submitted on or before the time and date fixed for submission of Bid (\"Bid Due Date\"). Bid delivered after Bid Due Date will be rejected."]
    case BiddingProcessConformity => ["The Bidders need to offer its Bid which conforms to Terms of Reference and Terms and Conditions provided as part of this RFP Document."]
    case BiddingProcessTechnical => ["In a first step, evaluation of Technical Bid will be carried out as specified in Clause 6.2 of SECTION III. Based on Technical evaluation, the Price Bids of only Bidder's meeting Responsiveness Criteria, Pre-Qualification Criteria and Qualification criteria as specified in clause 6.2(a), 5.1 and 5.2 shall be opened."]
    case BiddingProcessPrice => ["In the second stage, a Price Bid Evaluation of Technically Qualified Bidders will be carried out as per Clause 5.4 and 6.3. The Bids will finally be ranked from the highest to lowest according to their combined technical and price scores (the \"Composite Score\") derived based on Quality cum Cost based method (the \"QCBS\") specified in Clause 5.5 of RFP SECTION III. The Bidder obtaining Highest Composite score shall be considered as Preferred Bidder (the \"Preferred Bidder\")."]
    case DueDiligenceHeading => ["1.2. Due Diligence"]
    case DueDiligence => ["The Bidders are encouraged to examine and familiarize themselves fully about the nature of assignment, scope of work, all instructions, forms, terms and conditions of RFP, local condition and any other matters considered relevant by them before submitting the Bid, sending written queries to GMDC, and attending a Pre-Bid meeting."]
    case AcknowledgementHeading => ["1.3. Acknowledgement by Bidder"]
    case AcknowledgementIntro => ["By submitted the bid or proposal, the bidder acknowledges that:"]
    case AckExamination => ["made a complete and careful examination of the RFP."]
    case AckInformation => ["received all relevant information requested from GMDC."]
    case AckRisk => ["accepted the risk of inadequacy, error or mistake in the information provided in the RFP or furnished by or on behalf of GMDC relating to any of the matters referred to in Clause 1.2 above; and"]
    case AckConflict => ["acknowledged that it does not have a Conflict of Interest"]
    case AckUndertakings => ["Agreed to be bound by the undertakings provided by it under and in terms hereof."]
    case AcknowledgementLiability => ["GMDC shall not be liable for any omission, mistake or error in respect of any of the above or on account of any matter or thing arising out of or concerning or relating to the RFP or the Bidding Process, including any error or mistake therein or in any information or data given by GMDC."]
    case CostOfBiddingHeading => ["1.4. Cost of Bidding"]
    case CostOfBidding => ["The Bidders shall be responsible for all of the costs associated with the preparation of their Bids and their participation in the Bid Process. GMDC will not be responsible or in any way liable for such costs, regardless of the conduct or outcome of the Bidding Process."]
    case RfpFeeHeading => ["1.5. RFP Fee"]
    case RfpFee => ["Bidder will need to submit non-refundable RFP Document/Tender Fee of INR ", "/- (Rupees as applicable) (i.e. RFP Fees of INR ", " + 18% GST). The RFP Document Fees should be submitted in any one of following payment modes;"]
    case RfpFeeDemandDraft => ["In the form of a Demand Draft in favour of \"Gujarat Mineral Development Corporation Limited\" and payable at Ahmedabad, India. Such Demand shall be issued by any Approved Bank as provided in Annexure 13 (List of Approved Banks)."]
    case RfpFeeTransfer => ["Depositing the stated amount directly into GMDC bank account through NEFT/RTGS/wire transfer in GMDC's Bank account specified below."]
    case BankName => ["Bank Name: ICICI Bank, Ahmedabad Branch"]
    case AccountNumber => ["Account Number: 002405019379"]
    case IfsCode => ["IFS Code: ICIC0000024"]
    case SwiftCode => ["SWIFT Code: ICICINBBXXX"]
    case ElectronicPayment => ["If payment is made through electronic mode, then the Bidder shall submit the receipt of the same in the technical bid documents as evidence for the payment of RFP Fees."]
    case ScheduleHeading => ["1.6. Schedule of Bidding"]
    case ScheduleIntro => ["GMDC shall endeavour to adhere to the bidding schedule as specified in table below."]
    case SrNoColumn => ["Sr. No."]
    case EventColumn => ["Event Description"]
    case DateColumn => ["Date, Time and Address"]
    case DateFormatNote => ["(Dates are in DD/MM/YYYY formats)"]
    case EventRfpAvailable => ["Date from which RFP documents will be available"]
    case RfpAvailable => ["RFP shall be available from ", " from website https://www.gmdcltd.com and https://gmdctender.nprocure.com. Interested Bidders can download the RFP documents from above specified websites."]
    case EventQueries => ["Last date for receiving Pre-Bid queries/clarifications"]
    case Queries => ["Bidders may send their queries by ", " upto 18:00 hrs. through email to following contacts or reach out for any assistance."]
    case IssuingAuthority => ["Issuing Authority ", ""]
    case Email => ["Email: ", ""]
    case OfficeAddress => ["Address: Khanij Bhavan, 132 ft Ring road, Gujarat University Ground, Vastrapur, Ahmedabad"]
    case LandLines => ["Land Lines : 079-27913443"]
    case BoardLines => ["Board Lines : 079-27913501, 079-27913200"]
    case EventPreBid => ["Pre-Bid Meeting"]
    case PreBidMeeting => ["The Pre-Bid Meeting shall be held both physically and online at the same time and date at 12:00 hrs. on ", ". The venue for the physical meeting will be at GMDC office at Khanij Bhavan, 132 ft Ring road, Gujarat University Ground, Vastrapur, Ahmedabad."]
    case PreBidVideoLink => ["A video link for those who may wish to join online shall be uploaded on GMDC website i.e. https://www.gmdcltd.com prior to pre bid meeting."]
    case EventPriceBid => ["Online Submission of Price Bid"]
    case PriceBidOnline => ["The Price Bid is to be submitted online only at designated place https://gmdctender.nprocure.com on ", " up-to 18:00 hrs and (i) any submission of offline price bid (i.e., physical submission) or (ii) submission of price bid along with technical bid will lead to disqualification."]
    case TechnicalBidOffline => ["Technical Bid is not to be submitted online, but should be submitted in physical offline at the designated address by the deadline mentioned."]
    case EventTechnicalBid => ["Last Date and Time of Submission of Technical Bid, RFP Fees & EMD in Hard Copy"]
    case TechnicalBidSubmission => ["The Technical Bid is to be submitted offline or before ", " up to 15:00 Hrs. at GMDC office situated at Khanij Bhavan, 132-ft. Ring Road, Gujarat University Ground, Vastrapur, Ahmedabad- 380052, by Speed Post/Registered Post/Courier or by hand in sealed cover duly super scribed as mentioned in the RFP."]
    case EventTechnicalOpening => ["Opening of Technical Bid"]
    case TechnicalOpening => ["On ", " at 16:00 Hrs. at GMDC office situated at Ahmedabad as per the address specified in sr. no 2"]
    case EventPriceOpening => ["Opening of Price Bid"]
    case PriceOpening => ["To be indicated to later after completion of Technical Evaluation"]
    case EventSigning => ["Signing of Agreement"]
    case Signing => ["Within 30 days from the date of issuance of LOA."]
    case ScheduleChanges => ["GMDC shall endeavour to adhere to the bidding schedule as specified in above. However, there may be changes due to unavoidable circumstances. Any change shall be informed by placing the Corrigendum on the website and n-procurement portal."]
    case GeneralHeading => ["2. GENERAL"]
    case BidValidityHeading => ["2.1. Bid Validity"]
    case BidValidityPeriod => ["Bids shall remain valid for a period of not less than 180 days (One Hundred and Eighty days) from the Bid Due Date/Bid Submission Date (the \"Bid Validity Period\"). The Bid of the Bidder shall be considered non-responsive if such Bid is valid for a period less the Bid Validity Period."]
    case BidValidityExtension => ["In exceptional circumstances, prior to expiry of the original Bid Validity Period, Authority may request the Bidders to extend the period of validity for a specified additional period. The request and the responses thereto shall be made in writing. A Bidder may refuse the request. A Bidder agreeing to the request will not be required or permitted to modify his Bid. A Bidder may refuse the request without forfeiting his Bid Security/EMD. A Bidder agreeing to the request will not be required or permitted to modify his Bid but will be required to extend the validity of his Bid Security/EMD for the period of the extension, and in compliance with Clause 2.5 of RFP SECTION III in all respects."]
    case NumberOfBidsHeading => ["2.2. Numbers of Bids by Bidder"]
    case NumberOfBids => ["No Bidder shall submit more than one Bid pursuant to this RFP. If a Bidder submits or participates in more than one Bid, such Bids shall be disqualified."]
    case GoverningLawHeading => ["2.3. Governing Law and Jurisdiction"]
    case GoverningLaw => ["The Bidding Process shall be governed by, and construed in accordance with, the laws of India and the Courts at Ahmedabad/Gandhinagar in India shall have exclusive jurisdiction over all disputes arising under, pursuant to and/ or in connection with the Bidding Process."]
    case RightToRejectHeading => ["2.4. Authority's Right to accept and Reject any Bids or all Bids."]
    case RightToRejectAnnulment => ["Notwithstanding anything contained in this RFP, GMDC reserves the right to accept or reject any Bid and to annul the Bidding Process /Bid Evaluation Process and reject all Bids, at any time without any liability or any obligation for such acceptance, rejection or annulment, and without assigning any reasons thereof."]
    case RightToRejectRelease => ["It shall be deemed that by submitting the Bids, the Bidder agrees and releases GMDC, its employees, agents and advisers, irrevocably, unconditionally, fully and finally from any and all liability for claims, losses, damages, costs, expenses or liabilities in any way related to or arising from the exercise of any rights and/ or performance of any obligations hereunder, pursuant hereto and/ or in connection with the Bidding Process and waives, to the fullest extent permitted by applicable laws, any and all rights and/or claims it may have in this respect, whether actual or contingent, whether present or in future."]
    case RightToRejectGrounds => ["Without prejudice to the generality of Clause (a) and (b) above, GMDC reserves the right to reject any Proposal/Bid if:"]
    case RejectCriteria => ["1) Bid does not meet the Pre-qualification and Qualification criteria specified in this RFP"]
    case RejectMisrepresentation => ["2) at any time, a material misrepresentation is made or discovered, or"]
    case RejectCorruptPractice => ["3) The Bidder found to be in indulging in Fraudulent and Corrupt Practices as defined in this RFP."]
    case RejectMissingInformation => ["4) The Bidder does not provide, within the time specified by GMDC, the supplemental information sought by GMDC for evaluation of the Bid."]
    case RejectConditionalBid => ["5) Bidder submits conditional Bid."]
    case RejectionAfterOpening => ["If such disqualification / rejection occurs after the Bids have been opened and the Preferred Bidder as per award criteria gets disqualified / rejected, then GMDC reserves the right to consider the next best Preferred Bidder or take any other measure as may be deemed fit in the sole discretion of GMDC, including annulment of the Selection Process."]
    case EmdHeading => ["2.5. Earnest Money Deposit (EMD)/Bid Security"]
    case EmdFurnish => ["The bidder shall furnish, a separate Bid Security (also referred to as \"Earnest Money Deposit\" (EMD)/ Bid Security\") for Captioned work as part of his Bid as per the given format. The Bid Security/EMD shall be sealed in a separate sealed envelope along with RFP Fees and super scribing \"Earnest Money Deposit and RFP Fees \". An Earnest Money Deposit of an amount of INR ", "/- (Rupees as applicable) shall be provided in favour of \"Gujarat Mineral Development Corporation Ltd\", in any one of the following forms/formats. The List of Approved Bank except co -operative banks are provided in Annexure 14."]
    case EmdDemandDraft => ["Account payee Demand Draft /Banker's Cheque from any bank among the list of scheduled commercial Bank in India published by RBI."]
    case EmdBankGuarantee => ["An irrevocable Bank Guarantee (the \"Bank Guarantee\"), payable at Ahmedabad from Approved Bank to Authority as per the Annexure 14 except Co-operative Banks and valid for a period of 210 days (Two Hundred and Ten Days) from the Bid Due Date in the format prescribed in the bid documents. The validity of Bank Guarantee may be extended as may be mutually agreed between Authority and Bidder from time to time as per clause 2.1 of RFP SECTION III. In case Bidder intends to provide Bank Guarantee then it should be provided Compulsory e-Bank Guarantee Confirmation through ICICI Bank through SFMS1  under our IFS Code: ICIC0000024 and UIC GMDC530265584 for Field 7037. Bank Name: ICICI BANK LTD."]  }

  /** The text of a passage with `values` inserted between its segments
      (a missing value reads as empty, a surplus value is dropped). */
  function Fill(segments: seq<string>, values: seq<string>): string
    decreases |segments|
  {
    if |segments| == 0 then ""
    else if |segments| == 1 then segments[0]
    else segments[0] + (if values != [] then values[0] else "")
         + Fill(segments[1..], if values != [] then values[1..] else [])
  }

  /** The text a passage renders to. */
  function Render(p: Passage, values: seq<string>): string {
    Fill(Segments(p), values)
  }
}
